/**
 * The places of a configuration with a tab limit: every tab's `TabSlot` of `src/client/tab-slot.ts`, over
 * the `HeldLock` of `src/core/held-lock.ts` that keeps the gate.
 *
 * The gate is a lock with a queue. The places are locks without one: the browser may grant a place to any
 * of the requests for it. A callback runs some time after its lock was granted, an aborted request may
 * still be granted before it is withdrawn, and a tab may die at any time, which releases all it has.
 */
module TabSlots {
  import opened Basics

  type Tab = int

  /** A tab's request for one place. `Kept` is the place it uses, `Ending` one it is letting go. */
  datatype Request = Asked(isAborted: bool) | Granted | Kept | Ending

  datatype Slot = Slot(tab: Tab, place: nat)

  datatype Phase = Out | AtGate | Competing | Leaving

  /**
   * What one tab's `TabSlot` knows. `kept` stands for `#isHeld` and names the place; `ticket` numbers its turn at
   * the gate.
   */
  datatype TabState = TabState(phase: Phase, kept: Option<nat>, isStopped: bool, unsettled: nat, ticket: nat)

  datatype State = State(
    tabs: map<Tab, TabState>,
    gate: Option<Tab>,
    queue: seq<Tab>,
    requests: map<Slot, Request>,
    tickets: nat,
    admitted: seq<nat>)   // the tickets of the tabs that took a place, in that order

  const New := State(map[], None, [], map[], 0, [])

  predicate Holds(r: Request) { !r.Asked? }

  /** Whether some tab holds the lock of the place. */
  predicate IsTaken(s: State, place: nat) {
    exists slot :: slot in s.requests && slot.place == place && Holds(s.requests[slot])
  }

  /** What a tab that has its place, or wants none any more, does with its requests. */
  function Withdrawn(r: Request): Request {
    if r.Asked? then Asked(true) else if r.Kept? then Ending else r
  }

  function WithdrawAll(requests: map<Slot, Request>, t: Tab): map<Slot, Request> {
    map slot | slot in requests :: if slot.tab == t then Withdrawn(requests[slot]) else requests[slot]
  }

  function AskForAll(requests: map<Slot, Request>, t: Tab, maxTabs: nat): map<Slot, Request> {
    requests + map p | 0 <= p < maxTabs :: Slot(t, p) := Asked(false)
  }

  datatype Step =
    | Start(tab: Tab)
    | GateEnds(tab: Tab)            // the request at the gate was refused, or withdrawn after `stop()`
    | GrantGate
    | EnterGate(tab: Tab)           // the gate's callback runs
    | GrantPlace(tab: Tab, place: nat)
    | TakePlace(tab: Tab, place: nat)     // a place's callback runs
    | RequestEnds(tab: Tab, place: nat)   // a request for a place was refused or withdrawn, or its lock let go
    | LetGateGo(tab: Tab)
    | Stop(tab: Tab)
    | Die(tab: Tab)

  predicate IsAt(s: State, t: Tab, phase: Phase) { t in s.tabs && s.tabs[t].phase == phase }

  predicate Enabled(s: State, step: Step) {
    match step
    case Start(t) => t in s.tabs ==> s.tabs[t].phase.Out? && s.tabs[t].kept.None? && !s.tabs[t].isStopped
    case GateEnds(t) => t in s.queue && t in s.tabs
    case GrantGate => s.gate.None? && s.queue != []
    case EnterGate(t) => s.gate == Some(t) && IsAt(s, t, AtGate)
    case GrantPlace(t, p) => Slot(t, p) in s.requests && s.requests[Slot(t, p)].Asked? && !IsTaken(s, p)
    case TakePlace(t, p) => t in s.tabs && Slot(t, p) in s.requests && s.requests[Slot(t, p)].Granted?
    case RequestEnds(t, p) =>
      && t in s.tabs && s.tabs[t].unsettled > 0
      && Slot(t, p) in s.requests && (s.requests[Slot(t, p)].Asked? || s.requests[Slot(t, p)].Ending?)
    case LetGateGo(t) => IsAt(s, t, Leaving)
    case Stop(t) => t in s.tabs && !s.tabs[t].isStopped
    case Die(t) => t in s.tabs
  }

  // --- What one tab does --------------------------------------------------------------------------

  function Queued(ticket: nat): TabState { TabState(AtGate, None, false, 0, ticket) }

  function Entered(tab: TabState, maxTabs: nat): TabState {
    if tab.isStopped then tab.(phase := Leaving) else tab.(phase := Competing, unsettled := maxTabs)
  }

  /** A place's callback keeps the place only if it is the first, and the tab still wants one. */
  predicate Keeps(tab: TabState) { tab.kept.None? && !tab.isStopped }

  function Placed(tab: TabState, place: nat): TabState { tab.(kept := Some(place), phase := Leaving) }

  /** The last request to end without a place lets the gate go. */
  function Settled(tab: TabState): TabState
    requires tab.unsettled > 0
  {
    var tab' := tab.(unsettled := tab.unsettled - 1);
    if tab'.unsettled == 0 && tab.kept.None? && tab.phase.Competing? then tab'.(phase := Leaving) else tab'
  }

  function Stopped(tab: TabState): TabState {
    tab.(isStopped := true, kept := None, phase := if tab.phase.Competing? then Leaving else tab.phase)
  }

  // --- What the whole does ------------------------------------------------------------------------

  function OnEnter(s: State, t: Tab, maxTabs: nat): State
    requires t in s.tabs
  {
    s.(tabs := s.tabs[t := Entered(s.tabs[t], maxTabs)],
       requests := if s.tabs[t].isStopped then s.requests else AskForAll(s.requests, t, maxTabs))
  }

  function OnTakePlace(s: State, t: Tab, p: nat): State
    requires t in s.tabs && Slot(t, p) in s.requests
  {
    if !Keeps(s.tabs[t]) then s.(requests := s.requests[Slot(t, p) := Ending])
    else
      s.(tabs := s.tabs[t := Placed(s.tabs[t], p)],
         requests := WithdrawAll(s.requests, t)[Slot(t, p) := Kept],
         admitted := s.admitted + [s.tabs[t].ticket])
  }

  function OnRequestEnds(s: State, t: Tab, p: nat): State
    requires t in s.tabs && s.tabs[t].unsettled > 0
  {
    s.(tabs := s.tabs[t := Settled(s.tabs[t])], requests := s.requests - {Slot(t, p)})
  }

  function OnStop(s: State, t: Tab): State
    requires t in s.tabs
  {
    s.(tabs := s.tabs[t := Stopped(s.tabs[t])], requests := WithdrawAll(s.requests, t))
  }

  function OnDie(s: State, t: Tab): State {
    s.(tabs := s.tabs - {t}, gate := if s.gate == Some(t) then None else s.gate, queue := Without(s.queue, t),
       requests := map slot | slot in s.requests && slot.tab != t :: s.requests[slot])
  }

  function After(s: State, step: Step, maxTabs: nat): State
    requires Enabled(s, step)
  {
    match step
    case Start(t) => s.(tabs := s.tabs[t := Queued(s.tickets)], queue := s.queue + [t], tickets := s.tickets + 1)
    case GateEnds(t) => s.(tabs := s.tabs[t := s.tabs[t].(phase := Out)], queue := Without(s.queue, t))
    case GrantGate => s.(gate := Some(s.queue[0]), queue := s.queue[1..])
    case EnterGate(t) => OnEnter(s, t, maxTabs)
    case GrantPlace(t, p) => s.(requests := s.requests[Slot(t, p) := Granted])
    case TakePlace(t, p) => OnTakePlace(s, t, p)
    case RequestEnds(t, p) => OnRequestEnds(s, t, p)
    case LetGateGo(t) => s.(tabs := s.tabs[t := s.tabs[t].(phase := Out)], gate := None)
    case Stop(t) => OnStop(s, t)
    case Die(t) => OnDie(s, t)
  }

  // --- The invariant --------------------------------------------------------------------------------

  /** The gate has one holder, and a tab is in its queue, holds it or neither as its phase says. */
  ghost predicate GateOk(s: State) {
    && NoDuplicates(s.queue)
    && (forall t :: t in s.queue ==> IsAt(s, t, AtGate) && s.gate != Some(t))
    && (s.gate.Some? ==> s.gate.value in s.tabs && !s.tabs[s.gate.value].phase.Out?)
    && (forall t :: t in s.tabs ==> MatchesGate(s, t))
  }

  predicate MatchesGate(s: State, t: Tab)
    requires t in s.tabs
  {
    match s.tabs[t].phase
    case Out => true
    case AtGate => t in s.queue || s.gate == Some(t)
    case Competing => s.gate == Some(t)
    case Leaving => s.gate == Some(t)
  }

  /** Every request is of a living tab, and no place is held twice. */
  ghost predicate LocksOk(s: State, maxTabs: nat) {
    && (forall slot :: slot in s.requests ==> slot.tab in s.tabs && slot.place < maxTabs)
    && (forall a, b :: a in s.requests && b in s.requests && a.place == b.place ==>
          Holds(s.requests[a]) && Holds(s.requests[b]) ==> a == b)
  }

  /** A tab keeps at most one place, wants no more of them once it has it, and asks only while it is at the gate. */
  ghost predicate TabsOk(s: State) {
    && (forall slot :: slot in s.requests && slot.tab in s.tabs ==>
          RequestOk(s.requests[slot], slot.place, s.tabs[slot.tab]))
    && (forall t :: t in s.tabs && s.tabs[t].kept.Some? ==>
          Slot(t, s.tabs[t].kept.value) in s.requests && s.requests[Slot(t, s.tabs[t].kept.value)].Kept?)
    && (forall t :: t in s.tabs ==> TabOk(s.tabs[t]))
  }

  predicate TabOk(tab: TabState) {
    && (tab.kept.Some? ==> !tab.isStopped && !tab.phase.Competing? && !tab.phase.AtGate?)
    && (tab.phase.Competing? ==> !tab.isStopped)
  }

  predicate RequestOk(r: Request, place: nat, tab: TabState) {
    && (r.Kept? <==> tab.kept == Some(place))
    && (Keeps(tab) ==> tab.phase.Competing?)
    && (r.Asked? && !r.isAborted ==> Keeps(tab))
    && (r.Ending? ==> !Keeps(tab))
  }

  /** The countdown of a tab's requests is right. */
  function Outstanding(s: State, t: Tab): set<nat> { set slot | slot in s.requests && slot.tab == t :: slot.place }

  ghost predicate CountsOk(s: State) {
    forall t :: t in s.tabs ==> s.tabs[t].unsettled == |Outstanding(s, t)|
  }

  ghost predicate InOrder(queue: seq<Tab>, tabs: map<Tab, TabState>) {
    forall i, j :: 0 <= i < j < |queue| && queue[i] in tabs && queue[j] in tabs ==>
      tabs[queue[i]].ticket < tabs[queue[j]].ticket
  }

  /** Tabs are admitted in the order of their turns at the gate. */
  ghost predicate TicketsOk(s: State) {
    && (forall t :: t in s.tabs ==> s.tabs[t].ticket < s.tickets)
    && InOrder(s.queue, s.tabs)
    && (forall t :: t in s.queue && t in s.tabs && s.gate.Some? && s.gate.value in s.tabs ==>
          s.tabs[s.gate.value].ticket < s.tabs[t].ticket)
    && Ascending(s.admitted)
    && (forall a :: a in s.admitted ==> a < s.tickets)
    && (forall a, t :: a in s.admitted && t in s.queue && t in s.tabs ==> a < s.tabs[t].ticket)
    && (forall a :: a in s.admitted && s.gate.Some? && s.gate.value in s.tabs && Waits(s.tabs[s.gate.value]) ==>
          a < s.tabs[s.gate.value].ticket)
  }

  predicate Waits(tab: TabState) { tab.phase.AtGate? || tab.phase.Competing? }

  ghost predicate Inv(s: State, maxTabs: nat) {
    GateOk(s) && LocksOk(s, maxTabs) && TabsOk(s) && CountsOk(s) && TicketsOk(s)
  }

  // --- Every step keeps it ----------------------------------------------------------------------------

  lemma {:induction false} WithoutKeepsOrder(queue: seq<Tab>, t: Tab, tabs: map<Tab, TabState>)
    requires InOrder(queue, tabs)
    ensures InOrder(Without(queue, t), tabs)
  {
    if queue != [] {
      var rest := Without(queue[1..], t);
      assert InOrder(queue[1..], tabs) by {
        assert forall i :: 0 <= i < |queue[1..]| ==> queue[1..][i] == queue[i + 1];
      }
      WithoutKeepsOrder(queue[1..], t, tabs);
      assert forall x :: x in rest ==> x in queue[1..];
      forall j | 0 <= j < |rest| && rest[j] in tabs && queue[0] in tabs
        ensures tabs[queue[0]].ticket < tabs[rest[j]].ticket
      {
        assert rest[j] in rest;
        var i :| 0 <= i < |queue[1..]| && queue[1..][i] == rest[j];
        assert queue[i + 1] == rest[j];
      }
    }
  }

  /** A step that neither adds nor ends a request of a tab leaves its countdown right. */
  lemma SameOutstanding(s: State, s': State, t: Tab)
    requires forall p :: Slot(t, p) in s.requests <==> Slot(t, p) in s'.requests
    ensures Outstanding(s', t) == Outstanding(s, t)
  {
    forall p
      ensures p in Outstanding(s', t) <==> p in Outstanding(s, t)
    {
      assert p in Outstanding(s, t) <==> Slot(t, p) in s.requests;
      assert p in Outstanding(s', t) <==> Slot(t, p) in s'.requests;
    }
  }

  lemma CountsStay(s: State, s': State)
    requires CountsOk(s)
    requires forall t :: t in s'.tabs ==>
               t in s.tabs && s'.tabs[t].unsettled == s.tabs[t].unsettled
               && forall p :: Slot(t, p) in s.requests <==> Slot(t, p) in s'.requests
    ensures CountsOk(s')
  {
    forall t | t in s'.tabs
      ensures s'.tabs[t].unsettled == |Outstanding(s', t)|
    {
      SameOutstanding(s, s', t);
    }
  }

  lemma GateIsBehind(s: State)
    requires GateOk(s) && TicketsOk(s)
    ensures s.gate.Some? ==> s.tabs[s.gate.value].ticket < s.tickets
    ensures forall i :: 0 <= i < |s.queue| ==> s.queue[i] in s.tabs && s.tabs[s.queue[i]].ticket < s.tickets
  {
    if s.gate.Some? {
      var holder := s.gate.value;
      assert holder in s.tabs;
    }
    forall i | 0 <= i < |s.queue|
      ensures s.queue[i] in s.tabs && s.tabs[s.queue[i]].ticket < s.tickets
    {
      var t := s.queue[i];
      assert t in s.queue && IsAt(s, t, AtGate);
    }
  }

  lemma StartKeepsTickets(s: State, t: Tab, maxTabs: nat)
    requires Inv(s, maxTabs) && Enabled(s, Start(t))
    ensures TicketsOk(After(s, Start(t), maxTabs))
  {
    var s' := After(s, Start(t), maxTabs);
    GateIsBehind(s);
    assert forall i :: 0 <= i < |s.queue| ==> s'.queue[i] in s.queue;
  }

  lemma StartKeepsGate(s: State, t: Tab, maxTabs: nat)
    requires Inv(s, maxTabs) && Enabled(s, Start(t))
    ensures GateOk(After(s, Start(t), maxTabs))
  {
    assert t !in s.queue && s.gate != Some(t);
  }

  lemma StartKeepsTabs(s: State, t: Tab, maxTabs: nat)
    requires Inv(s, maxTabs) && Enabled(s, Start(t))
    ensures var s' := After(s, Start(t), maxTabs); LocksOk(s', maxTabs) && TabsOk(s') && CountsOk(s')
  {
    var s' := After(s, Start(t), maxTabs);
    assert forall p :: Slot(t, p) !in s.requests;
    forall x | x in s'.tabs
      ensures s'.tabs[x].unsettled == |Outstanding(s', x)|
    {
      SameOutstanding(s, s', x);
      if x == t { assert Outstanding(s', t) == {}; }
    }
  }

  lemma GateEndsKeepsInv(s: State, t: Tab, maxTabs: nat)
    requires Inv(s, maxTabs) && Enabled(s, GateEnds(t))
    ensures Inv(After(s, GateEnds(t), maxTabs), maxTabs)
  {
    var s' := After(s, GateEnds(t), maxTabs);
    WithoutKeepsNoDuplicates(s.queue, t);
    WithoutKeepsOrder(s.queue, t, s.tabs);
    CountsStay(s, s');
  }

  lemma GrantGateKeepsGate(s: State, maxTabs: nat)
    requires Inv(s, maxTabs) && Enabled(s, GrantGate)
    ensures GateOk(After(s, GrantGate, maxTabs))
  {
    var first, rest := s.queue[0], s.queue[1..];
    assert first in s.queue && IsAt(s, first, AtGate);
    HeadIsNotInTail(s.queue);
    assert forall t :: t in s.queue <==> t == first || t in rest;
  }

  lemma GrantGateKeepsTickets(s: State, maxTabs: nat)
    requires Inv(s, maxTabs) && Enabled(s, GrantGate)
    ensures TicketsOk(After(s, GrantGate, maxTabs))
  {
    var first, rest := s.queue[0], s.queue[1..];
    assert first in s.queue && IsAt(s, first, AtGate);
    forall t | t in rest && t in s.tabs
      ensures t in s.queue && s.tabs[first].ticket < s.tabs[t].ticket
    {
      var i :| 0 <= i < |rest| && rest[i] == t;
      assert s.queue[i + 1] == t;
    }
    assert forall i :: 0 <= i < |rest| ==> rest[i] == s.queue[i + 1];
  }

  lemma GrantGateKeepsTabs(s: State, maxTabs: nat)
    requires Inv(s, maxTabs) && Enabled(s, GrantGate)
    ensures var s' := After(s, GrantGate, maxTabs); LocksOk(s', maxTabs) && TabsOk(s') && CountsOk(s')
  {
    CountsStay(s, After(s, GrantGate, maxTabs));
  }

  lemma EnterGateKeepsInv(s: State, t: Tab, maxTabs: nat)
    requires Inv(s, maxTabs) && Enabled(s, EnterGate(t))
    ensures var s' := OnEnter(s, t, maxTabs); GateOk(s') && LocksOk(s', maxTabs)
  {
  }

  lemma EnterGateKeepsTabs(s: State, t: Tab, maxTabs: nat)
    requires Inv(s, maxTabs) && Enabled(s, EnterGate(t))
    ensures TabsOk(OnEnter(s, t, maxTabs))
  {
  }

  lemma EnterGateKeepsCounts(s: State, t: Tab, maxTabs: nat)
    requires Inv(s, maxTabs) && Enabled(s, EnterGate(t))
    ensures var s' := OnEnter(s, t, maxTabs); CountsOk(s') && TicketsOk(s')
  {
    var s' := OnEnter(s, t, maxTabs);
    if s.tabs[t].isStopped {
      CountsStay(s, s');
    } else {
      forall x | x in s'.tabs
        ensures s'.tabs[x].unsettled == |Outstanding(s', x)|
      {
        if x == t {
          AllOutstanding(s', t, maxTabs);
        } else {
          SameOutstanding(s, s', x);
        }
      }
    }
  }

  lemma AllOutstanding(s: State, t: Tab, maxTabs: nat)
    requires forall p: nat :: p < maxTabs <==> Slot(t, p) in s.requests
    ensures |Outstanding(s, t)| == maxTabs
  {
    var all := Below(maxTabs);
    forall p: nat
      ensures p in Outstanding(s, t) <==> p in all
    {
      assert p in Outstanding(s, t) <==> Slot(t, p) in s.requests;
    }
    assert Outstanding(s, t) == all;
  }

  function Below(n: nat): (below: set<nat>)
    ensures |below| == n && forall p: nat :: p in below <==> p < n
  {
    if n == 0 then {} else Below(n - 1) + {n - 1}
  }

  lemma GrantPlaceKeepsInv(s: State, t: Tab, p: nat, maxTabs: nat)
    requires Inv(s, maxTabs) && Enabled(s, GrantPlace(t, p))
    ensures Inv(After(s, GrantPlace(t, p), maxTabs), maxTabs)
  {
    CountsStay(s, After(s, GrantPlace(t, p), maxTabs));
  }

  lemma GivingBackKeepsTabs(s: State, t: Tab, p: nat, maxTabs: nat)
    requires Inv(s, maxTabs) && Enabled(s, TakePlace(t, p)) && !Keeps(s.tabs[t])
    ensures TabsOk(OnTakePlace(s, t, p))
  {
  }

  lemma KeepingKeepsTabs(s: State, t: Tab, p: nat, maxTabs: nat)
    requires Inv(s, maxTabs) && Enabled(s, TakePlace(t, p)) && Keeps(s.tabs[t])
    ensures TabsOk(OnTakePlace(s, t, p))
  {
    var s' := OnTakePlace(s, t, p);
    forall slot | slot in s'.requests && slot.tab in s'.tabs
      ensures RequestOk(s'.requests[slot], slot.place, s'.tabs[slot.tab])
    {
      assert RequestOk(s.requests[slot], slot.place, s.tabs[slot.tab]);
      if slot.tab == t && slot.place != p { WithdrawnIsOk(s.requests[slot], slot.place, s.tabs[t], p); }
    }
  }

  /** The tab takes place `p`, and its request for another place is withdrawn. */
  lemma WithdrawnIsOk(r: Request, place: nat, tab: TabState, p: nat)
    requires RequestOk(r, place, tab) && Keeps(tab) && place != p
    ensures RequestOk(Withdrawn(r), place, Placed(tab, p))
  {
  }

  lemma TakePlaceKeepsTabs(s: State, t: Tab, p: nat, maxTabs: nat)
    requires Inv(s, maxTabs) && Enabled(s, TakePlace(t, p))
    ensures TabsOk(OnTakePlace(s, t, p))
  {
    if Keeps(s.tabs[t]) { KeepingKeepsTabs(s, t, p, maxTabs); } else { GivingBackKeepsTabs(s, t, p, maxTabs); }
  }

  lemma TakePlaceKeepsLocks(s: State, t: Tab, p: nat, maxTabs: nat)
    requires Inv(s, maxTabs) && Enabled(s, TakePlace(t, p))
    ensures LocksOk(OnTakePlace(s, t, p), maxTabs)
  {
    var s' := OnTakePlace(s, t, p);
    assert s'.requests.Keys == s.requests.Keys;
    assert forall slot :: slot in s.requests ==> Holds(s'.requests[slot]) == Holds(s.requests[slot]);
  }

  lemma TakePlaceKeepsGate(s: State, t: Tab, p: nat, maxTabs: nat)
    requires Inv(s, maxTabs) && Enabled(s, TakePlace(t, p))
    ensures GateOk(OnTakePlace(s, t, p)) && CountsOk(OnTakePlace(s, t, p))
  {
    CountsStay(s, OnTakePlace(s, t, p));
  }

  lemma AdmittedStaysInTurn(admitted: seq<nat>, ticket: nat)
    requires Ascending(admitted)
    requires forall a :: a in admitted ==> a < ticket
    ensures Ascending(admitted + [ticket])
    ensures forall a :: a in admitted + [ticket] <==> a in admitted || a == ticket
  {
    assert forall i :: 0 <= i < |admitted| ==> admitted[i] in admitted;
  }

  lemma TakePlaceKeepsTickets(s: State, t: Tab, p: nat, maxTabs: nat)
    requires Inv(s, maxTabs) && Enabled(s, TakePlace(t, p))
    ensures TicketsOk(OnTakePlace(s, t, p))
  {
    var s' := OnTakePlace(s, t, p);
    if Keeps(s.tabs[t]) {
      assert s.gate == Some(t) && Waits(s.tabs[t]);
      assert forall x :: x in s.tabs ==> s'.tabs[x].ticket == s.tabs[x].ticket;
      assert InOrder(s'.queue, s'.tabs);
      AdmittedStaysInTurn(s.admitted, s.tabs[t].ticket);
    }
  }

  lemma EndedIsOneLess(s: State, t: Tab, p: nat)
    requires CountsOk(s) && t in s.tabs && Slot(t, p) in s.requests && s.tabs[t].unsettled > 0
    ensures CountsOk(OnRequestEnds(s, t, p))
    ensures Settled(s.tabs[t]).unsettled == 0 ==> forall q :: Slot(t, q) in s.requests ==> q == p
  {
    var s' := OnRequestEnds(s, t, p);
    forall x | x in s'.tabs
      ensures s'.tabs[x].unsettled == |Outstanding(s', x)|
    {
      if x == t {
        assert p in Outstanding(s, t);
        assert Outstanding(s', t) == Outstanding(s, t) - {p};
      } else {
        SameOutstanding(s, s', x);
      }
    }
    if Settled(s.tabs[t]).unsettled == 0 {
      forall q | Slot(t, q) in s.requests
        ensures q == p
      {
        assert Outstanding(s', t) == {};
        assert Slot(t, q) in s'.requests ==> q in Outstanding(s', t);
      }
    }
  }

  lemma RequestEndsKeepsTabs(s: State, t: Tab, p: nat, maxTabs: nat)
    requires Inv(s, maxTabs) && Enabled(s, RequestEnds(t, p))
    ensures var s' := OnRequestEnds(s, t, p); LocksOk(s', maxTabs) && TabsOk(s') && CountsOk(s')
  {
    EndedIsOneLess(s, t, p);
  }

  lemma RequestEndsKeepsGate(s: State, t: Tab, p: nat, maxTabs: nat)
    requires Inv(s, maxTabs) && Enabled(s, RequestEnds(t, p))
    ensures GateOk(OnRequestEnds(s, t, p)) && TicketsOk(OnRequestEnds(s, t, p))
  {
  }

  lemma LetGateGoKeepsInv(s: State, t: Tab, maxTabs: nat)
    requires Inv(s, maxTabs) && Enabled(s, LetGateGo(t))
    ensures Inv(After(s, LetGateGo(t), maxTabs), maxTabs)
  {
    CountsStay(s, After(s, LetGateGo(t), maxTabs));
  }

  lemma StopKeepsLocks(s: State, t: Tab, maxTabs: nat)
    requires Inv(s, maxTabs) && Enabled(s, Stop(t))
    ensures LocksOk(OnStop(s, t), maxTabs)
  {
  }

  lemma StopKeepsTabs(s: State, t: Tab, maxTabs: nat)
    requires Inv(s, maxTabs) && Enabled(s, Stop(t))
    ensures TabsOk(OnStop(s, t))
  {
  }

  lemma StopKeepsCounts(s: State, t: Tab, maxTabs: nat)
    requires Inv(s, maxTabs) && Enabled(s, Stop(t))
    ensures CountsOk(OnStop(s, t))
  {
    CountsStay(s, OnStop(s, t));
  }

  lemma StopKeepsGate(s: State, t: Tab, maxTabs: nat)
    requires Inv(s, maxTabs) && Enabled(s, Stop(t))
    ensures GateOk(OnStop(s, t)) && TicketsOk(OnStop(s, t))
  {
  }

  lemma DieKeepsGate(s: State, t: Tab, maxTabs: nat)
    requires Inv(s, maxTabs)
    ensures GateOk(OnDie(s, t)) && TicketsOk(OnDie(s, t))
  {
    WithoutKeepsNoDuplicates(s.queue, t);
    WithoutKeepsOrder(s.queue, t, s.tabs);
  }

  lemma DieKeepsTabs(s: State, t: Tab, maxTabs: nat)
    requires Inv(s, maxTabs)
    ensures LocksOk(OnDie(s, t), maxTabs) && TabsOk(OnDie(s, t)) && CountsOk(OnDie(s, t))
  {
    CountsStay(s, OnDie(s, t));
  }

  lemma StepKeepsInv(s: State, step: Step, maxTabs: nat)
    requires Inv(s, maxTabs) && Enabled(s, step)
    ensures Inv(After(s, step, maxTabs), maxTabs)
  {
    match step
    case Start(t) =>
      StartKeepsGate(s, t, maxTabs);
      StartKeepsTickets(s, t, maxTabs);
      StartKeepsTabs(s, t, maxTabs);
    case GateEnds(t) => GateEndsKeepsInv(s, t, maxTabs);
    case GrantGate =>
      GrantGateKeepsGate(s, maxTabs);
      GrantGateKeepsTickets(s, maxTabs);
      GrantGateKeepsTabs(s, maxTabs);
    case EnterGate(t) =>
      EnterGateKeepsInv(s, t, maxTabs);
      EnterGateKeepsTabs(s, t, maxTabs);
      EnterGateKeepsCounts(s, t, maxTabs);
    case GrantPlace(t, p) => GrantPlaceKeepsInv(s, t, p, maxTabs);
    case TakePlace(t, p) =>
      TakePlaceKeepsTabs(s, t, p, maxTabs);
      TakePlaceKeepsLocks(s, t, p, maxTabs);
      TakePlaceKeepsGate(s, t, p, maxTabs);
      TakePlaceKeepsTickets(s, t, p, maxTabs);
    case RequestEnds(t, p) =>
      RequestEndsKeepsTabs(s, t, p, maxTabs);
      RequestEndsKeepsGate(s, t, p, maxTabs);
    case LetGateGo(t) => LetGateGoKeepsInv(s, t, maxTabs);
    case Stop(t) =>
      StopKeepsLocks(s, t, maxTabs);
      StopKeepsTabs(s, t, maxTabs);
      StopKeepsCounts(s, t, maxTabs);
      StopKeepsGate(s, t, maxTabs);
    case Die(t) =>
      DieKeepsGate(s, t, maxTabs);
      DieKeepsTabs(s, t, maxTabs);
  }

  // --- Whole runs -------------------------------------------------------------------------------------

  ghost predicate IsRun(run: seq<State>, steps: seq<Step>, maxTabs: nat) {
    && |run| == |steps| + 1 && run[0] == New
    && forall i :: 0 <= i < |steps| ==> Enabled(run[i], steps[i]) && run[i + 1] == After(run[i], steps[i], maxTabs)
  }

  lemma {:induction false} RunKeepsInv(run: seq<State>, steps: seq<Step>, maxTabs: nat, n: nat)
    requires IsRun(run, steps, maxTabs) && n <= |steps|
    ensures Inv(run[n], maxTabs)
    decreases n
  {
    if n > 0 {
      RunKeepsInv(run, steps, maxTabs, n - 1);
      StepKeepsInv(run[n - 1], steps[n - 1], maxTabs);
    }
  }

  function Holders(s: State): set<Tab> { set t | t in s.tabs && s.tabs[t].kept.Some? }

  lemma {:induction false} NoMoreThanPlaces<T>(tabs: set<T>, place: map<T, nat>, places: set<nat>)
    requires forall t :: t in tabs ==> t in place && place[t] in places
    requires forall t, u :: t in tabs && u in tabs && place[t] == place[u] ==> t == u
    ensures |tabs| <= |places|
    decreases tabs
  {
    if tabs != {} {
      var t :| t in tabs;
      NoMoreThanPlaces(tabs - {t}, place, places - {place[t]});
    }
  }

  lemma KeptPlacesDiffer(s: State, maxTabs: nat)
    requires LocksOk(s, maxTabs) && TabsOk(s)
    ensures forall t :: t in Holders(s) ==> s.tabs[t].kept.value < maxTabs
    ensures forall t, u :: t in Holders(s) && u in Holders(s) && s.tabs[t].kept == s.tabs[u].kept ==> t == u
    ensures forall t, p: nat :: t in s.tabs ==>
              (s.tabs[t].kept == Some(p) <==> Slot(t, p) in s.requests && s.requests[Slot(t, p)].Kept?)
  {
    forall t | t in Holders(s)
      ensures s.tabs[t].kept.value < maxTabs
    {
      assert Slot(t, s.tabs[t].kept.value) in s.requests;
    }
    forall t, u | t in Holders(s) && u in Holders(s) && s.tabs[t].kept == s.tabs[u].kept
      ensures t == u
    {
      var p := s.tabs[t].kept.value;
      assert Slot(t, p) in s.requests && Slot(u, p) in s.requests;
    }
  }

  lemma HoldersAreBounded(s: State, maxTabs: nat)
    requires LocksOk(s, maxTabs) && TabsOk(s)
    ensures |Holders(s)| <= maxTabs
  {
    KeptPlacesDiffer(s, maxTabs);
    var place := map t | t in Holders(s) :: s.tabs[t].kept.value;
    forall t | t in Holders(s)
      ensures t in place && place[t] in Below(maxTabs)
    {
    }
    forall t, u | t in Holders(s) && u in Holders(s) && place[t] == place[u]
      ensures t == u
    {
      assert s.tabs[t].kept == s.tabs[u].kept;
    }
    NoMoreThanPlaces(Holders(s), place, Below(maxTabs));
  }

  /**
   * However many tabs come, go and die, no more than `maxTabs` hold a place, and each of them keeps exactly one of
   * its own.
   */
  lemma AtMostMaxTabs(run: seq<State>, steps: seq<Step>, maxTabs: nat, n: nat)
    requires IsRun(run, steps, maxTabs) && n <= |steps|
    ensures |Holders(run[n])| <= maxTabs
    ensures forall t, p: nat :: t in run[n].tabs ==>
              (run[n].tabs[t].kept == Some(p) <==> Slot(t, p) in run[n].requests && run[n].requests[Slot(t, p)].Kept?)
    ensures forall t, u :: t in Holders(run[n]) && u in Holders(run[n]) ==>
              run[n].tabs[t].kept == run[n].tabs[u].kept ==> t == u
  {
    RunKeepsInv(run, steps, maxTabs, n);
    KeptPlacesDiffer(run[n], maxTabs);
    HoldersAreBounded(run[n], maxTabs);
  }

  /** Tabs take their places in the order in which they joined the queue at the gate. */
  lemma AdmittedInTurn(run: seq<State>, steps: seq<Step>, maxTabs: nat, n: nat)
    requires IsRun(run, steps, maxTabs) && n <= |steps|
    ensures forall i, j :: 0 <= i < j < |run[n].admitted| ==> run[n].admitted[i] < run[n].admitted[j]
    ensures forall a, t :: a in run[n].admitted && t in run[n].queue && t in run[n].tabs ==> a < run[n].tabs[t].ticket
  {
    RunKeepsInv(run, steps, maxTabs, n);
  }

  lemma StoppedCanLetGo(s: State, maxTabs: nat, t: Tab)
    requires Inv(s, maxTabs) && t in s.tabs && s.tabs[t].isStopped
    ensures forall p: nat :: Slot(t, p) in s.requests ==> Enabled(s, TakePlace(t, p)) || Enabled(s, RequestEnds(t, p))
    ensures t in s.queue ==> Enabled(s, GateEnds(t))
    ensures s.gate == Some(t) ==> Enabled(s, EnterGate(t)) || Enabled(s, LetGateGo(t))
  {
    forall p: nat | Slot(t, p) in s.requests
      ensures Enabled(s, TakePlace(t, p)) || Enabled(s, RequestEnds(t, p))
    {
      assert p in Outstanding(s, t);
      assert RequestOk(s.requests[Slot(t, p)], p, s.tabs[t]);
    }
    assert TabOk(s.tabs[t]) && MatchesGate(s, t);
  }

  lemma StoppedAsksForNothing(s: State, step: Step, maxTabs: nat, t: Tab)
    requires Inv(s, maxTabs) && Enabled(s, step) && t in s.tabs && s.tabs[t].isStopped
    ensures var s' := After(s, step, maxTabs);
            && (t in s'.tabs ==> s'.tabs[t].isStopped)
            && forall p: nat :: t in s'.tabs && Slot(t, p) in s'.requests ==> Slot(t, p) in s.requests
  {
  }

  /**
   * A tab that was stopped asks for nothing more, whatever phase it was in, and for as long as it has
   * anything - a lock or a request - a step that takes it from it can be taken.
   */
  lemma StoppedLetsGo(run: seq<State>, steps: seq<Step>, maxTabs: nat, n: nat, t: Tab)
    requires IsRun(run, steps, maxTabs) && n <= |steps| && t in run[n].tabs && run[n].tabs[t].isStopped
    ensures forall p: nat :: Slot(t, p) in run[n].requests ==>
              Enabled(run[n], TakePlace(t, p)) || Enabled(run[n], RequestEnds(t, p))
    ensures t in run[n].queue ==> Enabled(run[n], GateEnds(t))
    ensures run[n].gate == Some(t) ==> Enabled(run[n], EnterGate(t)) || Enabled(run[n], LetGateGo(t))
    ensures n < |steps| && t in run[n + 1].tabs ==>
              && run[n + 1].tabs[t].isStopped
              && forall p: nat :: Slot(t, p) in run[n + 1].requests ==> Slot(t, p) in run[n].requests
  {
    RunKeepsInv(run, steps, maxTabs, n);
    StoppedCanLetGo(run[n], maxTabs, t);
    if n < |steps| {
      StoppedAsksForNothing(run[n], steps[n], maxTabs, t);
    }
  }

  // --- How much a stopped tab still has to let go ----------------------------------------------

  function NotYetGranted(s: State, t: Tab): set<nat> {
    set slot | slot in s.requests && slot.tab == t && s.requests[slot].Asked? :: slot.place
  }

  predicate IsToBeCalled(r: Request) { r.Asked? || r.Granted? }

  function NotYetCalled(s: State, t: Tab): set<nat> {
    set slot | slot in s.requests && slot.tab == t && IsToBeCalled(s.requests[slot]) :: slot.place
  }

  function AtTheGate(s: State, t: Tab): nat {
    if t in s.queue then 3 else if s.gate != Some(t) then 0 else if IsAt(s, t, AtGate) then 2 else 1
  }

  /** Every request counts once for each thing that can still become of it. */
  function Work(s: State, t: Tab): nat {
    |NotYetGranted(s, t)| + |NotYetCalled(s, t)| + |Outstanding(s, t)| + AtTheGate(s, t)
  }

  /** The steps in which the tab lets something go, or its requests move on. */
  predicate LetsGo(step: Step, t: Tab) {
    match step
    case GateEnds(x) => x == t
    case EnterGate(x) => x == t
    case GrantPlace(x, _) => x == t
    case TakePlace(x, _) => x == t
    case RequestEnds(x, _) => x == t
    case LetGateGo(x) => x == t
    case _ => false
  }

  lemma NothingLeft(s: State, t: Tab)
    ensures Work(s, t) == 0 <==> t !in s.queue && s.gate != Some(t) && forall p: nat :: Slot(t, p) !in s.requests
  {
    if slot :| slot in s.requests && slot.tab == t {
      assert slot.place in Outstanding(s, t) && Slot(t, slot.place) == slot;
    }
    assert NotYetCalled(s, t) <= Outstanding(s, t) && NotYetGranted(s, t) <= Outstanding(s, t);
    if Outstanding(s, t) == {} {
      assert forall p: nat :: Slot(t, p) in s.requests ==> p in Outstanding(s, t);
    }
  }

  /** Requests of the tab that stay as they are count as before. */
  lemma SameRequests(s: State, s': State, t: Tab)
    requires forall p: nat :: Slot(t, p) in s.requests <==> Slot(t, p) in s'.requests
    requires forall p: nat :: Slot(t, p) in s.requests ==> IsLike(s.requests[Slot(t, p)], s'.requests[Slot(t, p)])
    ensures NotYetGranted(s', t) == NotYetGranted(s, t) && NotYetCalled(s', t) == NotYetCalled(s, t)
    ensures Outstanding(s', t) == Outstanding(s, t)
  {
    forall p: nat
      ensures p in NotYetGranted(s', t) <==> p in NotYetGranted(s, t)
      ensures p in NotYetCalled(s', t) <==> p in NotYetCalled(s, t)
      ensures p in Outstanding(s', t) <==> p in Outstanding(s, t)
    {
      InSets(s, t, p);
      InSets(s', t, p);
    }
  }

  predicate IsLike(r: Request, r': Request) { r.Asked? == r'.Asked? && r.Granted? == r'.Granted? }

  lemma InSets(s: State, t: Tab, p: nat)
    ensures p in Outstanding(s, t) <==> Slot(t, p) in s.requests
    ensures p in NotYetGranted(s, t) <==> Slot(t, p) in s.requests && s.requests[Slot(t, p)].Asked?
    ensures p in NotYetCalled(s, t) <==>
              Slot(t, p) in s.requests && (s.requests[Slot(t, p)].Asked? || s.requests[Slot(t, p)].Granted?)
  {
    if p in Outstanding(s, t) {
      var slot :| slot in s.requests && slot.tab == t && slot.place == p;
      assert slot == Slot(t, p);
    }
    if p in NotYetGranted(s, t) {
      var slot :| slot in s.requests && slot.tab == t && s.requests[slot].Asked? && slot.place == p;
      assert slot == Slot(t, p);
    }
    if p in NotYetCalled(s, t) {
      var slot :| slot in s.requests && slot.tab == t && (s.requests[slot].Asked? || s.requests[slot].Granted?)
                  && slot.place == p;
      assert slot == Slot(t, p);
    }
  }

  /** One request of the tab changes, or goes. */
  lemma OneRequestMoves(s: State, s': State, t: Tab, p: nat)
    requires Slot(t, p) in s.requests
    requires forall q: nat :: q != p ==> (Slot(t, q) in s.requests <==> Slot(t, q) in s'.requests)
    requires forall q: nat :: q != p && Slot(t, q) in s.requests ==>
               IsLike(s.requests[Slot(t, q)], s'.requests[Slot(t, q)])
    ensures var here := Slot(t, p) in s'.requests;
            var r := s.requests[Slot(t, p)];
            var r' := if here then s'.requests[Slot(t, p)] else Ending;
            && Outstanding(s', t) == (if here then Outstanding(s, t) else Outstanding(s, t) - {p})
            && (!r'.Asked? ==> NotYetGranted(s', t) == NotYetGranted(s, t) - {p})
            && (!r'.Asked? && !r'.Granted? ==> NotYetCalled(s', t) == NotYetCalled(s, t) - {p})
            && (r'.Granted? && r.Asked? ==> NotYetCalled(s', t) == NotYetCalled(s, t))
    ensures p in Outstanding(s, t)
    ensures s.requests[Slot(t, p)].Asked? ==> p in NotYetGranted(s, t)
    ensures s.requests[Slot(t, p)].Asked? || s.requests[Slot(t, p)].Granted? ==> p in NotYetCalled(s, t)
  {
    InSets(s, t, p);
    forall q: nat
      ensures q != p ==> (q in NotYetGranted(s', t) <==> q in NotYetGranted(s, t))
      ensures q != p ==> (q in NotYetCalled(s', t) <==> q in NotYetCalled(s, t))
      ensures q != p ==> (q in Outstanding(s', t) <==> q in Outstanding(s, t))
      ensures q == p ==> (q in NotYetGranted(s', t) <==> Slot(t, p) in s'.requests && s'.requests[Slot(t, p)].Asked?)
      ensures q == p ==> (q in Outstanding(s', t) <==> Slot(t, p) in s'.requests)
    {
      InSets(s, t, q);
      InSets(s', t, q);
    }
    InSets(s', t, p);
  }

  lemma GrantShrinks(s: State, x: Tab, p: nat, maxTabs: nat, t: Tab)
    requires Enabled(s, GrantPlace(x, p))
    ensures Work(After(s, GrantPlace(x, p), maxTabs), t) <= Work(s, t)
    ensures x == t ==> Work(After(s, GrantPlace(x, p), maxTabs), t) < Work(s, t)
  {
    var s' := After(s, GrantPlace(x, p), maxTabs);
    if x == t {
      OneRequestMoves(s, s', t, p);
    } else {
      SameRequests(s, s', t);
    }
  }

  lemma CallShrinks(s: State, x: Tab, p: nat, t: Tab)
    requires x in s.tabs && Slot(x, p) in s.requests && s.requests[Slot(x, p)].Granted?
    requires t in s.tabs && s.tabs[t].isStopped
    ensures Work(OnTakePlace(s, x, p), t) <= Work(s, t)
    ensures x == t ==> Work(OnTakePlace(s, x, p), t) < Work(s, t)
  {
    if x == t {
      OwnCallShrinks(s, p, t);
    } else {
      OthersCallStays(s, x, p, t);
    }
  }

  lemma OwnCallShrinks(s: State, p: nat, t: Tab)
    requires Slot(t, p) in s.requests && s.requests[Slot(t, p)].Granted?
    ensures Work(s.(requests := s.requests[Slot(t, p) := Ending]), t) < Work(s, t)
  {
    var s' := s.(requests := s.requests[Slot(t, p) := Ending]);
    OneRequestMoves(s, s', t, p);
    WithoutIsLess(NotYetGranted(s, t), p);
    WithoutIsLess(NotYetCalled(s, t), p);
  }

  lemma WithoutIsLess(a: set<nat>, p: nat)
    ensures |a - {p}| <= |a| && (p in a ==> |a - {p}| < |a|)
  {
    assert p in a ==> a == (a - {p}) + {p};
    assert p !in a ==> a - {p} == a;
  }

  lemma OthersCallStays(s: State, x: Tab, p: nat, t: Tab)
    requires x in s.tabs && Slot(x, p) in s.requests && t in s.tabs && t != x
    ensures Work(OnTakePlace(s, x, p), t) == Work(s, t)
  {
    var s' := OnTakePlace(s, x, p);
    forall q: nat
      ensures Slot(t, q) in s.requests <==> Slot(t, q) in s'.requests
      ensures Slot(t, q) in s.requests ==> s'.requests[Slot(t, q)] == s.requests[Slot(t, q)]
    {
    }
    SameRequests(s, s', t);
  }

  lemma EndShrinks(s: State, x: Tab, p: nat, t: Tab)
    requires x in s.tabs && Slot(x, p) in s.requests && s.tabs[x].unsettled > 0
    requires t in s.tabs && s.tabs[t].isStopped
    ensures Work(OnRequestEnds(s, x, p), t) <= Work(s, t)
    ensures x == t ==> Work(OnRequestEnds(s, x, p), t) < Work(s, t)
  {
    var s' := OnRequestEnds(s, x, p);
    if x == t {
      OneRequestMoves(s, s', t, p);
      WithoutIsLess(NotYetGranted(s, t), p);
      WithoutIsLess(NotYetCalled(s, t), p);
      WithoutIsLess(Outstanding(s, t), p);
    } else {
      SameRequests(s, s', t);
    }
  }

  /** The steps at the gate; the tab's requests stay. */
  lemma GateShrinks(s: State, step: Step, maxTabs: nat, t: Tab)
    requires Inv(s, maxTabs) && Enabled(s, step) && t in s.tabs && s.tabs[t].isStopped
    requires step.Start? || step.GateEnds? || step.GrantGate? || step.EnterGate? || step.LetGateGo?
    ensures AtTheGate(After(s, step, maxTabs), t) <= AtTheGate(s, t)
    ensures LetsGo(step, t) ==> AtTheGate(After(s, step, maxTabs), t) < AtTheGate(s, t)
  {
    assert MatchesGate(s, t);
    if step.GrantGate? {
      HeadIsNotInTail(s.queue);
      assert forall x :: x in s.queue[1..] ==> x in s.queue;
    }
  }

  lemma OtherShrinks(s: State, step: Step, maxTabs: nat, t: Tab)
    requires Inv(s, maxTabs) && Enabled(s, step) && t in s.tabs && s.tabs[t].isStopped
    requires step.Stop? || (step.Die? && step.tab != t)
    ensures Work(After(s, step, maxTabs), t) <= Work(s, t)
  {
    var s' := After(s, step, maxTabs);
    assert step.tab != t;
    SameRequests(s, s', t);
  }

  /** A step of a stopped tab takes one thing off what it has to let go; no other step adds to it. */
  lemma StoppedWorkShrinks(s: State, step: Step, maxTabs: nat, t: Tab)
    requires Inv(s, maxTabs) && Enabled(s, step) && t in s.tabs && s.tabs[t].isStopped && step != Die(t)
    ensures Work(After(s, step, maxTabs), t) <= Work(s, t)
    ensures LetsGo(step, t) ==> Work(After(s, step, maxTabs), t) < Work(s, t)
  {
    match step
    case GrantPlace(x, p) => GrantShrinks(s, x, p, maxTabs, t);
    case TakePlace(x, p) => CallShrinks(s, x, p, t);
    case RequestEnds(x, p) => EndShrinks(s, x, p, t);
    case Stop(_) => OtherShrinks(s, step, maxTabs, t);
    case Die(_) => OtherShrinks(s, step, maxTabs, t);
    case Start(_) => RequestsStay(s, step, maxTabs, t);
    case GateEnds(_) => RequestsStay(s, step, maxTabs, t);
    case GrantGate => RequestsStay(s, step, maxTabs, t);
    case EnterGate(_) => RequestsStay(s, step, maxTabs, t);
    case LetGateGo(_) => RequestsStay(s, step, maxTabs, t);
  }

  lemma RequestsStay(s: State, step: Step, maxTabs: nat, t: Tab)
    requires Inv(s, maxTabs) && Enabled(s, step) && t in s.tabs && s.tabs[t].isStopped
    requires step.Start? || step.GateEnds? || step.GrantGate? || step.EnterGate? || step.LetGateGo?
    ensures Work(After(s, step, maxTabs), t) <= Work(s, t)
    ensures LetsGo(step, t) ==> Work(After(s, step, maxTabs), t) < Work(s, t)
  {
    var s' := After(s, step, maxTabs);
    GateShrinks(s, step, maxTabs, t);
    assert forall p: nat :: Slot(t, p) in s.requests <==> Slot(t, p) in s'.requests;
    assert forall p: nat :: Slot(t, p) in s.requests ==> s'.requests[Slot(t, p)] == s.requests[Slot(t, p)];
    SameRequests(s, s', t);
  }

  lemma NextHasLess(run: seq<State>, steps: seq<Step>, maxTabs: nat, n: nat, t: Tab)
    requires IsRun(run, steps, maxTabs) && n < |steps|
    requires t in run[n].tabs && t in run[n + 1].tabs && run[n].tabs[t].isStopped
    ensures run[n + 1].tabs[t].isStopped
    ensures Work(run[n + 1], t) + (if LetsGo(steps[n], t) then 1 else 0) <= Work(run[n], t)
  {
    RunKeepsInv(run, steps, maxTabs, n);
    StoppedAsksForNothing(run[n], steps[n], maxTabs, t);
    assert steps[n] != Die(t);
    StoppedWorkShrinks(run[n], steps[n], maxTabs, t);
  }

  /** How many of the steps are ones in which the tab lets something go. */
  function Moves(steps: seq<Step>, t: Tab): nat {
    if steps == [] then 0
    else Moves(steps[..|steps| - 1], t) + if LetsGo(steps[|steps| - 1], t) then 1 else 0
  }

  lemma MovesSnoc(steps: seq<Step>, m: nat, n: nat, t: Tab)
    requires m <= n < |steps|
    ensures Moves(steps[m..n + 1], t) == Moves(steps[m..n], t) + if LetsGo(steps[n], t) then 1 else 0
  {
    assert steps[m..n + 1][..n - m] == steps[m..n];
  }

  /** Where each step of the tab takes one thing off, that many are gone. */
  lemma {:induction false} AddsUp(work: seq<nat>, steps: seq<Step>, m: nat, n: nat, t: Tab)
    requires |work| == |steps| + 1 && m <= n <= |steps|
    requires forall k :: m <= k < n ==> work[k + 1] + (if LetsGo(steps[k], t) then 1 else 0) <= work[k]
    ensures work[n] + Moves(steps[m..n], t) <= work[m]
    decreases n
  {
    if m == n {
      assert steps[m..n] == [];
    } else {
      AddsUp(work, steps, m, n - 1, t);
      MovesSnoc(steps, m, n - 1, t);
    }
  }

  lemma {:induction false} StaysStopped(run: seq<State>, steps: seq<Step>, maxTabs: nat, m: nat, n: nat, t: Tab)
    requires IsRun(run, steps, maxTabs) && m <= n <= |steps|
    requires (forall k :: m <= k <= n ==> t in run[k].tabs) && run[m].tabs[t].isStopped
    ensures run[n].tabs[t].isStopped
    decreases n
  {
    if m < n {
      StaysStopped(run, steps, maxTabs, m, n - 1, t);
      NextHasLess(run, steps, maxTabs, n - 1, t);
    }
  }

  /**
   * A stopped tab comes to have nothing: along a run each of its steps takes one thing off what it has, and
   * while it has anything such a step can be taken - so after as many of them as it had things, it has none.
   */
  lemma StoppedEndsWithNothing(run: seq<State>, steps: seq<Step>, maxTabs: nat, m: nat, n: nat, t: Tab)
    requires IsRun(run, steps, maxTabs) && m <= n <= |steps|
    requires (forall k :: m <= k <= n ==> t in run[k].tabs) && run[m].tabs[t].isStopped
    ensures Work(run[n], t) + Moves(steps[m..n], t) <= Work(run[m], t)
    ensures Work(run[n], t) == 0 <==>
              t !in run[n].queue && run[n].gate != Some(t) && forall p: nat :: Slot(t, p) !in run[n].requests
  {
    var work := seq(|run|, k requires 0 <= k < |run| => Work(run[k], t));
    forall k | m <= k < n ensures work[k + 1] + (if LetsGo(steps[k], t) then 1 else 0) <= work[k] {
      StaysStopped(run, steps, maxTabs, m, k, t);
      NextHasLess(run, steps, maxTabs, k, t);
    }
    AddsUp(work, steps, m, n, t);
    NothingLeft(run[n], t);
  }

  /**
   * A tab that dies loses nothing for the others: it is in no queue and has no request, the places it held are
   * free and the gate it held can be granted again, and no other place changes hands.
   */
  lemma DeathLeaksNothing(run: seq<State>, steps: seq<Step>, maxTabs: nat, n: nat, t: Tab)
    requires IsRun(run, steps, maxTabs) && n < |steps| && steps[n] == Die(t)
    ensures t !in run[n + 1].queue && forall p: nat :: Slot(t, p) !in run[n + 1].requests
    ensures run[n].gate == Some(t) ==>
              run[n + 1].gate.None? && (run[n + 1].queue != [] ==> Enabled(run[n + 1], GrantGate))
    ensures forall p: nat :: IsTaken(run[n + 1], p) <==>
              IsTaken(run[n], p) && !(Slot(t, p) in run[n].requests && Holds(run[n].requests[Slot(t, p)]))
  {
    var s, s' := run[n], run[n + 1];
    RunKeepsInv(run, steps, maxTabs, n);
    forall p: nat
      ensures IsTaken(s', p) <==> IsTaken(s, p) && !(Slot(t, p) in s.requests && Holds(s.requests[Slot(t, p)]))
    {
      if slot :| slot in s.requests && slot.place == p && Holds(s.requests[slot]) && slot.tab != t {
        assert slot in s'.requests;
        assert slot != Slot(t, p);
      }
      if slot :| slot in s'.requests && slot.place == p && Holds(s'.requests[slot]) {
        assert slot in s.requests && slot != Slot(t, p);
      }
    }
  }

  // --- The class ----------------------------------------------------------------------------------------

  class TabSlot {
    const maxTabs: nat
    var phase: Phase
    var kept: Option<nat>
    var isStopped: bool
    var unsettled: nat
    /** What has become of the tab's own requests for places, by place. */
    var requests: map<nat, Request>
    ghost var ticket: nat

    ghost function Value(): TabState reads this { TabState(phase, kept, isStopped, unsettled, ticket) }

    /** The countdown is right, and the requests are what the phase, the kept place and `stop()` say. */
    ghost predicate Valid()
      reads this
    {
      && TabOk(Value())
      && (forall p :: p in requests ==> p < maxTabs && RequestOk(requests[p], p, Value()))
      && (kept.Some? ==> kept.value in requests)
      && unsettled == |requests.Keys|
    }

    constructor (maxTabs: nat)
      ensures Valid() && Value() == TabState(Out, None, false, 0, 0) && requests == map[] && this.maxTabs == maxTabs
    {
      this.maxTabs := maxTabs;
      phase, kept, isStopped, unsettled, requests, ticket := Out, None, false, 0, map[], 0;
    }

    /** The gate is granted: every place is requested, unless the tab was stopped meanwhile. */
    method TakePlace()
      requires Valid() && phase.AtGate?
      modifies this
      ensures Valid() && Value() == Entered(old(Value()), maxTabs)
      ensures if old(isStopped) then requests == old(requests)
              else requests.Keys == Below(maxTabs) && forall p :: p in requests ==> requests[p] == Asked(false)
    {
      if isStopped {
        phase := Leaving;
      } else {
        phase := Competing;
        unsettled := maxTabs;
        requests := map p | p in Below(maxTabs) :: Asked(false);
        assert requests.Keys == Below(maxTabs);
      }
    }

    /**
     * A place is granted: kept if it is the first and one is still wanted, and then no other request asks any
     * more; otherwise it is given back at once.
     */
    method PlaceGranted(place: nat) returns (keeps: bool)
      requires Valid() && place in requests && (requests[place].Asked? || requests[place].Granted?)
      modifies this
      ensures Valid() && requests.Keys == old(requests).Keys
      ensures keeps <==> old(kept).None? && !old(isStopped)
      ensures keeps ==> kept == Some(place) && phase.Leaving? && requests[place].Kept?
      ensures keeps ==> forall p :: p in requests && p != place ==> requests[p] != Asked(false) && !requests[p].Kept?
      ensures !keeps ==> Value() == old(Value()) && requests == old(requests)[place := Ending]
    {
      if kept.Some? || isStopped {
        requests := requests[place := Ending];
        assert requests.Keys == old(requests).Keys;
        return false;
      }
      kept := Some(place);
      // The signal of every request is aborted; the one being granted is past it.
      requests := map p | p in requests :: if p == place then Kept else Withdrawn(requests[p]);
      assert requests.Keys == old(requests).Keys;
      phase := Leaving;
      keeps := true;
    }

    /** A request ended, however it ended: the gate is let go with the last one, unless a place is kept. */
    method RequestSettled(place: nat)
      requires Valid() && place in requests && (requests[place].Asked? || requests[place].Ending?)
      modifies this
      ensures Valid() && requests == old(requests) - {place} && kept == old(kept) && isStopped == old(isStopped)
      ensures phase == if old(phase).Competing? && requests == map[] && kept.None? then Leaving else old(phase)
    {
      requests := requests - {place};
      unsettled := unsettled - 1;
      assert requests.Keys == old(requests).Keys - {place};
      assert |requests.Keys| == unsettled && (unsettled == 0 ==> requests.Keys == {});
      if unsettled == 0 && kept.None? && phase.Competing? {
        phase := Leaving;
      }
      assert requests.Keys == {} <==> requests == map[];
    }

    /** No request asks any more, no place is kept, and the gate is let go if it was held for one. */
    method Stop()
      requires Valid()
      modifies this
      ensures Valid() && isStopped && kept.None? && !phase.Competing? && requests.Keys == old(requests).Keys
      ensures forall p :: p in requests ==> requests[p] != Asked(false) && !requests[p].Kept?
      ensures old(phase).Competing? ==> phase.Leaving?
      ensures !old(phase).Competing? ==> phase == old(phase)
    {
      if isStopped { return; }
      isStopped := true;
      kept := None;
      requests := map p | p in requests :: Withdrawn(requests[p]);
      assert requests.Keys == old(requests).Keys;
      if phase.Competing? { phase := Leaving; }
    }
  }
}
