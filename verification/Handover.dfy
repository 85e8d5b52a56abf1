/**
 * How a term of holding the port ends in the eyes of the other tabs: the lock of one term, the tab that
 * holds it, the tabs that watch it (`src/client/owner-terms.ts`), and the order in which the holder
 * lets go (`#stopBeingOwner` and `#queueGoodbye` of `src/client/configuration-session.ts`).
 *
 * A lock is a set of granted requests and a first-in-first-out queue, as the Web Locks API defines it;
 * a request takes its place in the queue where it is made. Any script of the origin may hold or queue
 * for the lock, too. Words of the holder reach each tab in order, and none is lost.
 */
module Handover {
  import opened Basics

  /** A request for the term's lock. `Own` is the hold of the term itself. */
  datatype LockRequest = Own | Watch(tab: ClientId) | Goodbye | Foreign(id: int, exclusive: bool)

  predicate IsExclusive(r: LockRequest) { r.Own? || r.Goodbye? || (r.Foreign? && r.exclusive) }

  predicate Grantable(r: LockRequest, granted: set<LockRequest>) {
    if IsExclusive(r) then granted == {} else forall g :: g in granted ==> !IsExclusive(g)
  }

  /** Where the holder stands in the order it lets go in. */
  datatype Holder = Holding | Stopping | GoodbyeQueued | GoodbyeSaid | LetGo | Crashed

  predicate HoldsLock(h: Holder) { h.Holding? || h.Stopping? || h.GoodbyeQueued? || h.GoodbyeSaid? }

  datatype Phase = Unknown | Checking(held: bool) | Live | Ended | Refused

  /** The watch for the end of the term; `Asked` holds the answer of `#isEndingCleanly`. */
  datatype Watching = NotYet | Requested | Granted | Asked(ending: bool) | Over

  datatype Tab = Tab(phase: Phase, watching: Watching, isEnding: bool, hasHeardGoodbye: bool)

  datatype Word = Answer(request: RequestId) | OwnerReleased

  datatype State = State(
    holder: Holder,
    granted: set<LockRequest>,
    queue: seq<LockRequest>,
    tabs: map<ClientId, Tab>,
    requests: map<ClientId, seq<RequestId>>,  // write requests on their way to the holder
    sent: map<ClientId, seq<Word>>,           // history: what the holder has said to each tab
    heard: map<ClientId, nat>,                // how much of it has arrived
    accepted: set<ClientId>)                  // history: tabs a write of which was accepted in the term

  const NEWCOMER := Tab(Unknown, NotYet, false, false)

  function Begin(tabs: set<ClientId>): State {
    State(Holding, {Own}, [], map x | x in tabs :: NEWCOMER, map x | x in tabs :: [], map x | x in tabs :: [],
          map x | x in tabs :: 0, {})
  }

  datatype Step =
    // a tab that hears of the term
    | Check(tab: ClientId)                  // `ifAvailable`, decided where the request is made
    | Checked(tab: ClientId)                // its answer: live and watched, or refused
    | CheckFailed(tab: ClientId)            // the browser would not say
    | HandOver(tab: ClientId, request: RequestId)
    | Query(tab: ClientId)                  // `locks.query()`, while the watch's grant is held
    | QueryFailed(tab: ClientId)
    | Decide(tab: ClientId)                 // what the granted watch concludes, letting its grant go
    | Hear(tab: ClientId)
    // the holder
    | Accept(tab: ClientId)
    | Say(tab: ClientId, request: RequestId)  // a `write-result`
    | Stop
    | QueueGoodbye
    | SayReleased
    | LetLockGo
    | CrashHolder
    | GoodbyeDone                           // the goodbye's callback returns at once
    // the lock, and other scripts
    | Grant
    | Intrude(id: int, exclusive: bool)
    | Withdraw(at: nat)                     // a script withdraws a queued request
    | Leave(grant: LockRequest)           // a script lets a grant go

  predicate IsHolderStep(step: Step) {
    || step.Accept? || step.Say? || step.Stop? || step.QueueGoodbye? || step.SayReleased?
    || step.LetLockGo? || step.CrashHolder?
  }

  predicate IsLockStep(step: Step) {
    step.GoodbyeDone? || step.Grant? || step.Intrude? || step.Withdraw? || step.Leave?
  }

  predicate IsTabStep(step: Step) { !IsHolderStep(step) && !IsLockStep(step) }

  predicate TabEnabled(s: State, step: Step)
    requires IsTabStep(step)
  {
    match step
    case Check(x) => x in s.tabs && s.tabs[x].phase.Unknown?
    case Checked(x) => x in s.tabs && s.tabs[x].phase.Checking?
    case CheckFailed(x) => x in s.tabs && s.tabs[x].phase.Checking?
    case HandOver(x, _) => x in s.tabs && x in s.requests && s.tabs[x].phase.Live?
    case Query(x) => x in s.tabs && s.tabs[x].watching.Granted?
    case QueryFailed(x) => x in s.tabs && s.tabs[x].watching.Granted?
    case Decide(x) => x in s.tabs && s.tabs[x].watching.Asked?
    case Hear(x) => x in s.tabs && x in s.heard && x in s.sent && s.heard[x] < |s.sent[x]|
  }

  predicate HolderEnabled(s: State, step: Step)
    requires IsHolderStep(step)
  {
    match step
    case Accept(x) => s.holder.Holding? && x in s.requests && s.requests[x] != []
    case Say(x, _) => HoldsLock(s.holder) && x in s.accepted && x in s.sent
    case Stop => s.holder.Holding?
    case QueueGoodbye => s.holder.Stopping?
    case SayReleased => s.holder.GoodbyeQueued?
    case LetLockGo => s.holder.GoodbyeSaid?
    case CrashHolder => HoldsLock(s.holder) || s.holder.LetGo?
  }

  predicate LockEnabled(s: State, step: Step)
    requires IsLockStep(step)
  {
    match step
    case GoodbyeDone => Goodbye in s.granted
    case Grant => s.queue != [] && Grantable(s.queue[0], s.granted)
    case Intrude(id, exclusive) => Foreign(id, exclusive) !in s.queue && Foreign(id, exclusive) !in s.granted
    case Withdraw(at) => at < |s.queue| && s.queue[at].Foreign?
    case Leave(r) => r in s.granted && r.Foreign?
  }

  predicate Enabled(s: State, step: Step) {
    if IsHolderStep(step) then HolderEnabled(s, step)
    else if IsLockStep(step) then LockEnabled(s, step)
    else TabEnabled(s, step)
  }

  function WithTab(s: State, x: ClientId, tab: Tab): State { s.(tabs := s.tabs[x := tab]) }

  /** `#checkLock`: a shared request that is not granted at once finds the lock held. */
  predicate FoundHeld(s: State) { s.queue != [] || !Grantable(Watch(0), s.granted) }

  /** What `#isEndingCleanly` looks for. */
  predicate ExclusivePending(queue: seq<LockRequest>) {
    exists i :: 0 <= i < |queue| && IsExclusive(queue[i])
  }

  /** The callback of the granted watch, once it knows whether the holder was letting go cleanly. */
  function Concluded(tab: Tab, ending: bool): Tab {
    if !tab.phase.Live? then tab.(watching := Over)
    else if ending && !tab.hasHeardGoodbye then tab.(watching := Over, isEnding := true)
    else tab.(watching := Over, phase := Ended)
  }

  /** `#heardReleased`; a word heard while the lock is being checked waits for the answer. */
  function HeardReleased(tab: Tab): Tab {
    if !tab.phase.Live? then tab
    else tab.(hasHeardGoodbye := true, phase := if tab.isEnding then Ended else Live)
  }

  /** Words about the term wait while its lock is being checked, and are dropped before it is known. */
  predicate MayHear(tab: Tab) { !tab.phase.Checking? }

  function TabAfter(s: State, step: Step): State
    requires IsTabStep(step) && TabEnabled(s, step)
  {
    match step
    case Check(x) => WithTab(s, x, s.tabs[x].(phase := Checking(FoundHeld(s))))
    case Checked(x) =>
      if s.tabs[x].phase.held
      then WithTab(s, x, s.tabs[x].(phase := Live, watching := Requested)).(queue := s.queue + [Watch(x)])
      else WithTab(s, x, s.tabs[x].(phase := Refused))
    case CheckFailed(x) => WithTab(s, x, s.tabs[x].(phase := Unknown))
    case HandOver(x, r) => s.(requests := s.requests[x := s.requests[x] + [r]])
    case Query(x) => WithTab(s, x, s.tabs[x].(watching := Asked(ExclusivePending(s.queue))))
    case QueryFailed(x) => WithTab(s, x, s.tabs[x].(watching := Asked(false)))
    case Decide(x) =>
      WithTab(s, x, Concluded(s.tabs[x], s.tabs[x].watching.ending)).(granted := s.granted - {Watch(x)})
    case Hear(x) =>
      if !MayHear(s.tabs[x]) then s
      else
        var s' := s.(heard := s.heard[x := s.heard[x] + 1]);
        if s.sent[x][s.heard[x]].OwnerReleased? then WithTab(s', x, HeardReleased(s.tabs[x])) else s'
  }

  function HolderAfter(s: State, step: Step): State
    requires IsHolderStep(step) && HolderEnabled(s, step)
  {
    match step
    case Accept(x) => s.(requests := s.requests[x := s.requests[x][1..]], accepted := s.accepted + {x})
    case Say(x, r) => s.(sent := s.sent[x := s.sent[x] + [Answer(r)]])
    case Stop => s.(holder := Stopping)
    case QueueGoodbye => s.(holder := GoodbyeQueued, queue := s.queue + [Goodbye])
    case SayReleased => s.(holder := GoodbyeSaid, sent := map x | x in s.sent :: s.sent[x] + [OwnerReleased])
    case LetLockGo => s.(holder := LetGo, granted := s.granted - {Own})
    case CrashHolder =>
      s.(holder := Crashed, granted := s.granted - {Own, Goodbye}, queue := Without(s.queue, Goodbye))
  }

  function LockAfter(s: State, step: Step): State
    requires IsLockStep(step) && LockEnabled(s, step)
  {
    match step
    case GoodbyeDone => s.(granted := s.granted - {Goodbye})
    case Grant =>
      var r := s.queue[0];
      var s' := s.(granted := s.granted + {r}, queue := s.queue[1..]);
      if r.Watch? && r.tab in s.tabs then WithTab(s', r.tab, s.tabs[r.tab].(watching := Granted)) else s'
    case Intrude(id, exclusive) => s.(queue := s.queue + [Foreign(id, exclusive)])
    case Withdraw(at) => s.(queue := s.queue[..at] + s.queue[at + 1..])
    case Leave(r) => s.(granted := s.granted - {r})
  }

  function After(s: State, step: Step): State
    requires Enabled(s, step)
  {
    if IsHolderStep(step) then HolderAfter(s, step)
    else if IsLockStep(step) then LockAfter(s, step)
    else TabAfter(s, step)
  }

  // --- Which terms are believed, and which have ended -------------------------------------------

  /** What is true of the lock whatever anyone does. */
  ghost predicate LockOk(s: State) {
    && (Own in s.granted <==> HoldsLock(s.holder))
    && (Own in s.granted ==> s.granted == {Own})
    && Own !in s.queue
    && NoDuplicates(s.queue)
    && (forall r :: r in s.queue ==> r !in s.granted)
  }

  /** A watch is where its tab thinks it is. */
  ghost predicate WatchOk(s: State, x: ClientId)
    requires x in s.tabs
  {
    var tab := s.tabs[x];
    && (Watch(x) in s.queue <==> tab.watching.Requested?)
    && (Watch(x) in s.granted <==> tab.watching.Granted? || tab.watching.Asked?)
    && (tab.watching.NotYet? <==> tab.phase.Unknown? || tab.phase.Checking? || tab.phase.Refused?)
    && (tab.isEnding || tab.phase.Ended? ==> tab.watching.Over?)
    && (tab.watching.Over? ==> !HoldsLock(s.holder))
  }

  /** Once the goodbye has been queued, it stands behind every watch requested before it. */
  ghost predicate Early(s: State, x: ClientId)
    requires x in s.tabs
  {
    match s.tabs[x].watching
    case NotYet => false
    case Requested =>
      s.holder.Holding? || s.holder.Stopping? || GoodbyeBehind(s.queue, Watch(x))
    case Granted => Goodbye in s.queue
    case Asked(ending) => ending
    case Over =>
      (s.tabs[x].isEnding || s.tabs[x].hasHeardGoodbye) && (s.tabs[x].phase.Ended? ==> s.tabs[x].hasHeardGoodbye)
  }

  ghost predicate GoodbyeBehind(queue: seq<LockRequest>, r: LockRequest) {
    exists i, j :: 0 <= i < j < |queue| && queue[i] == r && queue[j] == Goodbye
  }

  /** What a tab has heard is what the holder has said first. */
  ghost predicate WordsOk(s: State, x: ClientId)
    requires x in s.tabs
  {
    && x in s.requests && x in s.sent && x in s.heard && s.heard[x] <= |s.sent[x]|
    && (s.requests[x] != [] || x in s.accepted ==> !s.tabs[x].watching.NotYet?)
    && (s.tabs[x].hasHeardGoodbye ==> OwnerReleased in s.sent[x][..s.heard[x]])
    && (s.tabs[x].phase.Live? && s.tabs[x].watching.Over? ==> s.tabs[x].isEnding)
    // The goodbye is said once.
    && (s.holder.Holding? || s.holder.Stopping? || s.holder.GoodbyeQueued? ==> OwnerReleased !in s.sent[x])
    && (forall i, j :: 0 <= i < j < |s.sent[x]| ==> !(s.sent[x][i].OwnerReleased? && s.sent[x][j].OwnerReleased?))
  }

  ghost predicate Inv(s: State) {
    && LockOk(s)
    && s.sent.Keys == s.tabs.Keys && s.requests.Keys == s.tabs.Keys && s.accepted <= s.tabs.Keys
    && (forall x :: x in s.tabs ==> WatchOk(s, x) && WordsOk(s, x))
    && ((s.holder.Holding? || s.holder.Stopping? || s.holder.Crashed?) ==> Goodbye !in s.queue && Goodbye !in s.granted)
  }

  lemma AppendKeepsBehind(queue: seq<LockRequest>, w: LockRequest, r: LockRequest)
    requires GoodbyeBehind(queue, w)
    ensures GoodbyeBehind(queue + [r], w)
  {
    var i, j :| 0 <= i < j < |queue| && queue[i] == w && queue[j] == Goodbye;
    assert (queue + [r])[i] == w && (queue + [r])[j] == Goodbye;
  }

  lemma RemoveKeepsBehind(queue: seq<LockRequest>, w: LockRequest, at: nat)
    requires GoodbyeBehind(queue, w) && at < |queue| && queue[at] != w && queue[at] != Goodbye
    ensures GoodbyeBehind(queue[..at] + queue[at + 1..], w)
  {
    var i, j :| 0 <= i < j < |queue| && queue[i] == w && queue[j] == Goodbye;
    var q := queue[..at] + queue[at + 1..];
    var i', j' := if i < at then i else i - 1, if j < at then j else j - 1;
    assert q[i'] == w && q[j'] == Goodbye;
  }

  ghost predicate NoGoodbyeYet(s: State) {
    s.holder.Holding? || s.holder.Stopping? || s.holder.Crashed? ==> Goodbye !in s.queue && Goodbye !in s.granted
  }

  lemma TabStepKeepsLock(s: State, step: Step)
    requires Inv(s) && IsTabStep(step) && TabEnabled(s, step)
    ensures LockOk(TabAfter(s, step)) && NoGoodbyeYet(TabAfter(s, step))
  {
    if step.Checked? {
      assert WatchOk(s, step.tab);
    }
  }

  lemma HolderStepKeepsLock(s: State, step: Step)
    requires Inv(s) && IsHolderStep(step) && HolderEnabled(s, step)
    ensures LockOk(HolderAfter(s, step)) && NoGoodbyeYet(HolderAfter(s, step))
  {
    if step.CrashHolder? {
      WithoutKeepsNoDuplicates(s.queue, Goodbye);
    }
  }

  lemma LockStepKeepsLock(s: State, step: Step)
    requires Inv(s) && IsLockStep(step) && LockEnabled(s, step)
    ensures LockOk(LockAfter(s, step)) && NoGoodbyeYet(LockAfter(s, step))
  {
    if step.Withdraw? {
      assert forall r :: r in s.queue[..step.at] + s.queue[step.at + 1..] ==> r in s.queue;
    }
    if step.Grant? {
      assert s.queue == [s.queue[0]] + s.queue[1..];
      assert s.queue[0] !in s.queue[1..];
    }
  }

  lemma TabStepKeepsWatch(s: State, step: Step, x: ClientId)
    requires Inv(s) && IsTabStep(step) && TabEnabled(s, step) && x in s.tabs
    ensures WatchOk(TabAfter(s, step), x)
  {
    assert WatchOk(s, x);
  }

  lemma HolderStepKeepsWatch(s: State, step: Step, x: ClientId)
    requires Inv(s) && IsHolderStep(step) && HolderEnabled(s, step) && x in s.tabs
    ensures WatchOk(HolderAfter(s, step), x)
  {
    assert WatchOk(s, x);
  }

  lemma LockStepKeepsWatch(s: State, step: Step, x: ClientId)
    requires Inv(s) && IsLockStep(step) && LockEnabled(s, step) && x in s.tabs
    ensures WatchOk(LockAfter(s, step), x)
  {
    assert WatchOk(s, x);
    if step.Grant? {
      assert s.queue == [s.queue[0]] + s.queue[1..];
      assert s.queue[0] !in s.queue[1..];
    }
    if step.Withdraw? {
      assert s.queue == s.queue[..step.at] + [s.queue[step.at]] + s.queue[step.at + 1..];
    }
  }

  lemma TabStepKeepsWords(s: State, step: Step, x: ClientId)
    requires Inv(s) && IsTabStep(step) && TabEnabled(s, step) && x in s.tabs
    ensures WordsOk(TabAfter(s, step), x)
  {
    assert WatchOk(s, x) && WordsOk(s, x);
    if step == Hear(x) {
      assert s.sent[x][..s.heard[x] + 1] == s.sent[x][..s.heard[x]] + [s.sent[x][s.heard[x]]];
    }
  }

  lemma HolderStepKeepsWords(s: State, step: Step, x: ClientId)
    requires Inv(s) && IsHolderStep(step) && HolderEnabled(s, step) && x in s.tabs
    ensures WordsOk(HolderAfter(s, step), x)
  {
    assert WatchOk(s, x) && WordsOk(s, x);
    assert HolderAfter(s, step).sent[x][..s.heard[x]] == s.sent[x][..s.heard[x]];
  }

  lemma LockStepKeepsWords(s: State, step: Step, x: ClientId)
    requires Inv(s) && IsLockStep(step) && LockEnabled(s, step) && x in s.tabs
    ensures WordsOk(LockAfter(s, step), x)
  {
    assert WatchOk(s, x) && WordsOk(s, x);
  }

  lemma TabStepKeepsTabs(s: State, step: Step)
    requires IsTabStep(step) && TabEnabled(s, step)
    ensures TabAfter(s, step).tabs.Keys == s.tabs.Keys
  {
  }

  lemma TabStepKeepsInv(s: State, step: Step)
    requires Inv(s) && IsTabStep(step) && TabEnabled(s, step)
    ensures Inv(TabAfter(s, step)) && TabAfter(s, step).tabs.Keys == s.tabs.Keys
  {
    TabStepKeepsTabs(s, step);
    TabStepKeepsLock(s, step);
    forall x | x in s.tabs ensures WatchOk(TabAfter(s, step), x) && WordsOk(TabAfter(s, step), x) {
      TabStepKeepsWatch(s, step, x);
      TabStepKeepsWords(s, step, x);
    }
  }

  lemma HolderStepKeepsInv(s: State, step: Step)
    requires Inv(s) && IsHolderStep(step) && HolderEnabled(s, step)
    ensures Inv(HolderAfter(s, step)) && HolderAfter(s, step).tabs.Keys == s.tabs.Keys
  {
    HolderStepKeepsLock(s, step);
    forall x | x in s.tabs ensures WatchOk(HolderAfter(s, step), x) && WordsOk(HolderAfter(s, step), x) {
      HolderStepKeepsWatch(s, step, x);
      HolderStepKeepsWords(s, step, x);
    }
  }

  lemma LockStepKeepsInv(s: State, step: Step)
    requires Inv(s) && IsLockStep(step) && LockEnabled(s, step)
    ensures Inv(LockAfter(s, step)) && LockAfter(s, step).tabs.Keys == s.tabs.Keys
  {
    LockStepKeepsLock(s, step);
    forall x | x in s.tabs ensures WatchOk(LockAfter(s, step), x) && WordsOk(LockAfter(s, step), x) {
      LockStepKeepsWatch(s, step, x);
      LockStepKeepsWords(s, step, x);
    }
  }

  lemma StepKeepsInv(s: State, step: Step)
    requires Inv(s) && Enabled(s, step)
    ensures Inv(After(s, step)) && After(s, step).tabs.Keys == s.tabs.Keys
  {
    if IsHolderStep(step) {
      HolderStepKeepsInv(s, step);
    } else if IsLockStep(step) {
      LockStepKeepsInv(s, step);
    } else {
      TabStepKeepsInv(s, step);
    }
  }

  /** The holder does not crash, and the browser lists its locks for `x` whenever it asks. */
  predicate IsOrderly(step: Step, x: ClientId) { step != CrashHolder && step != QueryFailed(x) }

  /** A tab a write of which was accepted in the term stays ahead of the goodbye. */
  lemma TabStepKeepsEarly(s: State, step: Step, x: ClientId)
    requires Inv(s) && IsTabStep(step) && TabEnabled(s, step) && x in s.tabs && IsOrderly(step, x)
    requires x in s.accepted && Early(s, x)
    ensures Early(TabAfter(s, step), x)
  {
    assert WatchOk(s, x) && WordsOk(s, x);
    if step.Checked? && s.tabs[x].watching.Requested? && GoodbyeBehind(s.queue, Watch(x)) {
      AppendKeepsBehind(s.queue, Watch(x), Watch(step.tab));
    }
  }

  lemma HolderStepKeepsEarly(s: State, step: Step, x: ClientId)
    requires Inv(s) && IsHolderStep(step) && HolderEnabled(s, step) && x in s.tabs && IsOrderly(step, x)
    requires x in s.accepted ==> Early(s, x)
    ensures x in HolderAfter(s, step).accepted ==> Early(HolderAfter(s, step), x)
  {
    assert WatchOk(s, x) && WordsOk(s, x);
    if step.QueueGoodbye? && x in s.accepted && s.tabs[x].watching.Requested? {
      var i :| 0 <= i < |s.queue| && s.queue[i] == Watch(x);
      var q := s.queue + [Goodbye];
      assert q[i] == Watch(x) && q[|s.queue|] == Goodbye;
    }
  }

  lemma GrantKeepsBehind(queue: seq<LockRequest>, w: LockRequest)
    requires GoodbyeBehind(queue, w) && NoDuplicates(queue)
    ensures if queue[0] == w then Goodbye in queue[1..] else GoodbyeBehind(queue[1..], w)
  {
    var i, j :| 0 <= i < j < |queue| && queue[i] == w && queue[j] == Goodbye;
    assert queue[1..][j - 1] == Goodbye;
    if i > 0 { assert queue[1..][i - 1] == w; }
  }

  lemma LockStepKeepsEarly(s: State, step: Step, x: ClientId)
    requires Inv(s) && IsLockStep(step) && LockEnabled(s, step) && x in s.tabs
    requires x in s.accepted && Early(s, x)
    ensures Early(LockAfter(s, step), x)
  {
    assert WatchOk(s, x) && WordsOk(s, x);
    if s.tabs[x].watching.Requested? && GoodbyeBehind(s.queue, Watch(x)) {
      match step
      case Grant => GrantKeepsBehind(s.queue, Watch(x));
      case Withdraw(at) => RemoveKeepsBehind(s.queue, Watch(x), at);
      case Intrude(id, exclusive) => AppendKeepsBehind(s.queue, Watch(x), Foreign(id, exclusive));
      case _ =>
    } else if step.Grant? {
      assert s.tabs[x].watching.Granted? ==> s.queue[0] != Goodbye;
      assert s.queue == [s.queue[0]] + s.queue[1..];
    } else if step.Withdraw? {
      assert s.queue == s.queue[..step.at] + [s.queue[step.at]] + s.queue[step.at + 1..];
    }
  }

  lemma StepKeepsEarly(s: State, step: Step, x: ClientId)
    requires Inv(s) && Enabled(s, step) && x in s.tabs && IsOrderly(step, x)
    requires x in s.accepted ==> Early(s, x)
    ensures x in After(s, step).tabs && (x in After(s, step).accepted ==> Early(After(s, step), x))
  {
    if IsHolderStep(step) {
      HolderStepKeepsEarly(s, step, x);
    } else if x in s.accepted {
      if IsLockStep(step) {
        LockStepKeepsEarly(s, step, x);
      } else {
        TabStepKeepsEarly(s, step, x);
      }
    }
  }

  // --- Runs -------------------------------------------------------------------------------------

  ghost predicate IsRun(run: seq<State>, steps: seq<Step>, tabs: set<ClientId>) {
    && |run| == |steps| + 1 && run[0] == Begin(tabs)
    && forall i :: 0 <= i < |steps| ==> Enabled(run[i], steps[i]) && run[i + 1] == After(run[i], steps[i])
  }

  lemma {:induction false} RunKeepsInv(run: seq<State>, steps: seq<Step>, tabs: set<ClientId>, n: nat)
    requires IsRun(run, steps, tabs) && n <= |steps|
    ensures Inv(run[n]) && run[n].tabs.Keys == tabs
  {
    if n > 0 {
      RunKeepsInv(run, steps, tabs, n - 1);
      StepKeepsInv(run[n - 1], steps[n - 1]);
    }
  }

  lemma {:induction false} RunKeepsEarly(run: seq<State>, steps: seq<Step>, tabs: set<ClientId>, x: ClientId, n: nat)
    requires IsRun(run, steps, tabs) && n <= |steps| && x in tabs
    requires forall i :: 0 <= i < |steps| ==> IsOrderly(steps[i], x)
    ensures x in run[n].tabs && (x in run[n].accepted ==> Early(run[n], x))
  {
    RunKeepsInv(run, steps, tabs, n);
    if n > 0 {
      RunKeepsEarly(run, steps, tabs, x, n - 1);
      RunKeepsInv(run, steps, tabs, n - 1);
      StepKeepsEarly(run[n - 1], steps[n - 1], x);
    }
  }

  /**
   * No message ends a term that is still held: a tab has it down as ended only once its holder has let
   * go of the lock or is gone, whatever messages and lock requests anyone has sent.
   */
  lemma {:induction false} EndedMeansLetGo(run: seq<State>, steps: seq<Step>, tabs: set<ClientId>, x: ClientId, n: nat)
    requires IsRun(run, steps, tabs) && n <= |steps| && x in tabs
    ensures x in run[n].tabs && (run[n].tabs[x].phase.Ended? ==> !HoldsLock(run[n].holder))
  {
    RunKeepsInv(run, steps, tabs, n);
    assert WatchOk(run[n], x);
  }

  /** While the holder holds the term, whoever checks its lock finds it held. */
  lemma {:induction false} HeldIsFoundHeld(run: seq<State>, steps: seq<Step>, tabs: set<ClientId>, n: nat)
    requires IsRun(run, steps, tabs) && n <= |steps| && HoldsLock(run[n].holder)
    ensures FoundHeld(run[n])
  {
    RunKeepsInv(run, steps, tabs, n);
    assert Own in run[n].granted;
  }

  /**
   * A clean handover loses no answer: when a tab has the term down as ended, and a write of it was accepted in
   * the term, the holder has said `owner-released` to it, once, and the tab has heard it - and so every answer
   * said before - whatever other scripts queue on the lock, and however the steps of the tabs interleave.
   */
  lemma {:induction false} CleanHandoverLosesNoAnswer(run: seq<State>, steps: seq<Step>, tabs: set<ClientId>,
                                                      x: ClientId, n: nat)
    returns (j: nat)
    requires IsRun(run, steps, tabs) && n <= |steps| && x in tabs
    requires forall k :: 0 <= k < |steps| ==> IsOrderly(steps[k], x)
    requires x in run[n].tabs && x in run[n].accepted && run[n].tabs[x].phase.Ended?
    ensures x in run[n].sent && x in run[n].heard && j < run[n].heard[x] <= |run[n].sent[x]|
    ensures forall i :: 0 <= i < |run[n].sent[x]| ==> (run[n].sent[x][i].OwnerReleased? <==> i == j)
    ensures forall i :: 0 <= i < j ==> run[n].sent[x][i].Answer? && i < run[n].heard[x]
  {
    RunKeepsInv(run, steps, tabs, n);
    RunKeepsEarly(run, steps, tabs, x, n);
    assert WatchOk(run[n], x) && WordsOk(run[n], x);
    var heard := run[n].sent[x][..run[n].heard[x]];
    j :| 0 <= j < |heard| && heard[j] == OwnerReleased;
  }
}
