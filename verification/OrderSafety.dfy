/**
 * When the writes of one tab reach the device in the order it issued them, and when they do not.
 *
 * A write reaches the device after its issuer has said yes to the question its term is waiting on. The order
 * is kept exactly as long as no such yes is said out of turn, and no write is taken back out of turn: every
 * run in which neither happens begins the writes in order (`OrderIsKept`), and after either the run can go on
 * - without another step out of turn - to a log in which a later write stands before an earlier one
 * (module OrderBroken). Module HandOverOrder says which runs never get that far.
 */
module OrderSafety {
  import opened Basics
  import opened Delivery
  import P = PendingWrites
  import A = AcceptedWrites
  import D = DeliverySafety

  /** The writes `tab` has issued, in order. */
  function Issued(steps: seq<Step>, tab: ClientId): seq<Write> {
    if steps == [] then []
    else
      var last := steps[|steps| - 1];
      Issued(steps[..|steps| - 1], tab) + if last.Issue? && last.write.origin == tab then [last.write] else []
  }

  ghost predicate Earlier(o: seq<Write>, v: Write, w: Write) {
    exists i, j :: 0 <= i < j < |o| && o[i] == v && o[j] == w
  }

  /** Its issuer still waits on the write, and has let no term begin it. */
  predicate Unstarted(s: System, w: Write) { Mine(s, w) && s.pending[w].startedTerm.None? }

  /** A term that still runs has, or is about to be given, leave to begin the write. */
  ghost predicate Bound(s: System, w: Write) {
    exists t :: Alive(s, t) && D.Committed(s, w, t)
  }

  ghost predicate NoneAhead(s: System, o: seq<Write>, w: Write) {
    forall v :: Earlier(o, v, w) ==> !Unstarted(s, v) && !Bound(s, v)
  }

  ghost predicate NoneBehind(s: System, o: seq<Write>, w: Write) {
    forall x :: Earlier(o, w, x) ==> !D.EverBegun(s.log, x) && !Bound(s, x)
  }

  /** The message a delivery takes off its channel. */
  predicate Takes(s: System, step: Step, m: Message) {
    step.Deliver? && Channel(s, step.from, step.to) != [] && Channel(s, step.from, step.to)[0] == m
  }

  /** The issuer hears the question the term is waiting on, and says yes. */
  predicate Approves(s: System, step: Step, w: Write, t: TermId) {
    && IsAsking(s, t, w) && Alive(s, t)
    && Takes(s, step, Ready(w.request, t, s.terms[t].running.phase.question))
    && step.from == s.terms[t].tab && step.to == w.origin
    && w in s.pending && P.MayBegin(s.pending[w], t)
  }

  /** `NOT_CONNECTED` takes back a write that had been let begin. */
  predicate TakesBack(s: System, step: Step, w: Write, t: TermId) {
    && t in s.terms && Takes(s, step, Result(w.request, t, NotConnected))
    && step.from == s.terms[t].tab && step.to == w.origin
    && w in s.pending && s.pending[w].addressedTerm == Some(t) && s.pending[w].startedTerm.Some?
  }

  /**
   * A yes is in turn if no earlier write can still be begun - and, where the write had been let begin before,
   * no later one has been or can be. A write is taken back in turn if no later one has been begun or can be.
   */
  ghost predicate InTurn(s: System, o: seq<Write>, step: Step) {
    && (forall w, t :: w in o && Approves(s, step, w, t) ==>
          NoneAhead(s, o, w) && (s.pending[w].startedTerm.Some? ==> NoneBehind(s, o, w)))
    && (forall w, t :: w in o && TakesBack(s, step, w, t) ==> NoneBehind(s, o, w))
  }

  // --- What a step can change -------------------------------------------------------------------

  lemma BoundAfterSend(s: System, from: ClientId, to: ClientId, m: Message, w: Write)
    requires Bound(Send(s, from, to, m), w) && !(m.Approval? && m.approved)
    ensures Bound(s, w)
  {
    var s' := Send(s, from, to, m);
    var t :| Alive(s', t) && D.Committed(s', w, t);
    var c := Channel(s, from, to);
    assert forall i :: 0 <= i < |c| ==> (c + [m])[i] == c[i];
    assert D.Committed(s, w, t);
  }

  lemma BoundAfterLoss(s: System, from: ClientId, to: ClientId, at: nat, w: Write)
    requires at < |Channel(s, from, to)|
    requires Bound(WithChannel(s, from, to, Channel(s, from, to)[..at] + Channel(s, from, to)[at + 1..]), w)
    ensures Bound(s, w)
  {
    var c := Channel(s, from, to);
    var c' := c[..at] + c[at + 1..];
    var s' := WithChannel(s, from, to, c');
    var t :| Alive(s', t) && D.Committed(s', w, t);
    assert forall i :: 0 <= i < |c'| ==> c'[i] == c[if i < at then i else i + 1];
    assert D.Committed(s, w, t);
  }

  lemma BoundAfterHandOver(s: System, v: Write, h: P.Host, w: Write)
    requires v in s.pending && Bound(HandOver(s, v, h), w)
    ensures Bound(s, w)
  {
    var p := s.pending[v];
    var s' := s.(pending := s.pending[v := P.HandOn(p, h)]);
    if P.MayHandOn(p, h) && h.currentTerm.value in s.terms {
      BoundAfterSend(s', v.origin, s.terms[h.currentTerm.value].tab, Request(v.request, h.currentTerm.value), w);
    }
    SameTermsSameBound(s, s', w);
  }

  lemma SameTermsSameBound(s: System, s': System, w: Write)
    requires s'.terms == s.terms && s'.channels == s.channels && s.gone <= s'.gone
    ensures Bound(s', w) ==> Bound(s, w)
    ensures s.gone == s'.gone ==> (Bound(s', w) <==> Bound(s, w))
  {
    if Bound(s', w) {
      var t :| Alive(s', t) && D.Committed(s', w, t);
      assert Alive(s, t) && D.Committed(s, w, t);
    }
    if s.gone == s'.gone && Bound(s, w) {
      var t :| Alive(s, t) && D.Committed(s, w, t);
      assert Alive(s', t) && D.Committed(s', w, t);
    }
  }

  lemma BoundAfterIssuerStep(s: System, step: Step, w: Write)
    requires Enabled(s, step) && D.IsIssuerStep(step) && Bound(After(s, step), w)
    ensures Bound(s, w)
  {
    match step
    case Issue(v, h) =>
      var s' := s.(issued := s.issued + {v}, pending := s.pending[v := P.FRESH]);
      BoundAfterHandOver(s', v, h, w);
      SameTermsSameBound(s, s', w);
    case HandOn(v, h) => BoundAfterHandOver(s, v, h, w);
    case Resend(v, h) =>
      var s' := s.(pending := s.pending[v := P.TakeBack(s.pending[v], h)]);
      BoundAfterHandOver(s', v, h, w);
      SameTermsSameBound(s, s', w);
    case TermEnded(v, _) => SameTermsSameBound(s, Settle(s, v, OwnerLost), w);
    case Expire(v) => SameTermsSameBound(s, Settle(s, v, P.OnDeadline(s.pending[v])), w);
    case Release(v) => SameTermsSameBound(s, Settle(s, v, Released), w);
  }

  /** A term's own step binds nothing: a question just asked has not been answered. */
  lemma BoundAfterTermChange(s: System, t0: TermId, term: Term, asked: int, w: Write)
    requires t0 in s.terms ==> term.tab == s.terms[t0].tab
    requires term.running.Busy? && !(t0 in s.terms && term.running == s.terms[t0].running) ==>
               match term.running.phase
               case Asking(q) => q == s.asked && D.MessagesOk(s)
               case Answered(yes, _) => !yes
               case _ => true
    requires Bound(WithTerm(s, t0, term).(asked := asked), w)
    ensures Bound(s, w)
  {
    var s' := WithTerm(s, t0, term).(asked := asked);
    var t :| Alive(s', t) && D.Committed(s', w, t);
    assert D.Committed(s, w, t);
  }

  lemma BoundAfterReport(s: System, t: TermId, v: Write, o: Outcome, waiting: seq<Write>, running: Running, w: Write)
    requires t in s.terms && (running == s.terms[t].running || running.Idle? || running.phase.Stalled?)
    requires Bound(Report(s, t, v, o, waiting, running), w)
    ensures Bound(s, w)
  {
    var term := s.terms[t];
    var accepted := A.AfterFinish(term.accepted, v, o, A.MAX_REMEMBERED_FINISHED_WRITES);
    var term' := term.(accepted := accepted, waiting := waiting, running := running);
    BoundAfterSend(WithTerm(s, t, term'), term.tab, v.origin, Result(v.request, t, o), w);
    assert WithTerm(s, t, term') == WithTerm(s, t, term').(asked := s.asked);
    BoundAfterTermChange(s, t, term', s.asked, w);
  }

  lemma BoundAfterTermStep(s: System, step: Step, w: Write)
    requires IsTermStep(step) && TermEnabled(s, step) && D.MessagesOk(s) && Bound(TermAfter(s, step), w)
    ensures Bound(s, w)
  {
    var t := step.term;
    match step
    case StartTerm(_, tab) => BoundAfterTermChange(s, t, Term(tab, true, false, A.Empty(), [], Idle), s.asked, w);
    case StopTerm(_) => BoundAfterTermChange(s, t, s.terms[t].(accepting := false), s.asked, w);
    case Connection(_, isOpen) => BoundAfterTermChange(s, t, s.terms[t].(isOpen := isOpen), s.asked, w);
    case StartJob(_) =>
      var term := s.terms[t];
      BoundAfterTermChange(s, t, term.(waiting := term.waiting[1..], running := Busy(term.waiting[0], Next)),
                           s.asked, w);
    case StopWaiting(_) =>
      var r := s.terms[t].running;
      BoundAfterTermChange(s, t, s.terms[t].(running := Busy(r.write, Answered(false, r.phase.question))), s.asked, w);
    case Withdraw(_, at) =>
      var term := s.terms[t];
      BoundAfterReport(s, t, term.waiting[at], Timeout(false), term.waiting[..at] + term.waiting[at + 1..],
                       term.running, w);
    case Late(_) => BoundAfterReport(s, t, s.terms[t].running.write, Timeout(false), s.terms[t].waiting, Idle, w);
    case Ask(_) => BoundAfterAsk(s, t, w);
    case Conclude(_) => BoundAfterConclude(s, t, w);
    case Stall(_) =>
      var v := s.terms[t].running.write;
      BoundAfterReport(s, t, v, Timeout(true), s.terms[t].waiting, Busy(v, Stalled), w);
    case Finish(_, o) => BoundAfterFinish(s, t, o, w);
  }

  lemma BoundAfterAsk(s: System, t: TermId, w: Write)
    requires TermEnabled(s, Ask(t)) && D.MessagesOk(s) && Bound(TermAfter(s, Ask(t)), w)
    ensures Bound(s, w)
  {
    var term := s.terms[t];
    var v := term.running.write;
    if !term.isOpen {
      BoundAfterReport(s, t, v, NotConnected, term.waiting, Idle, w);
    } else {
      var term' := term.(running := Busy(v, Asking(s.asked)));
      var s' := WithTerm(s, t, term').(asked := s.asked + 1);
      BoundAfterSend(s', term.tab, v.origin, Ready(v.request, t, s.asked), w);
      BoundAfterTermChange(s, t, term', s.asked + 1, w);
    }
  }

  lemma BoundAfterConclude(s: System, t: TermId, w: Write)
    requires TermEnabled(s, Conclude(t)) && Bound(TermAfter(s, Conclude(t)), w)
    ensures Bound(s, w)
  {
    var term := s.terms[t];
    var v := term.running.write;
    if !term.isOpen {
      BoundAfterReport(s, t, v, NotConnected, term.waiting, Idle, w);
    } else if !term.running.phase.approved {
      BoundAfterReport(s, t, v, Timeout(false), term.waiting, Idle, w);
    } else {
      var term' := term.(running := Busy(v, Writing));
      var s' := WithTerm(s, t, term').(asked := s.asked);
      SameTermsSameBound(s', TermAfter(s, Conclude(t)), w);
      BoundAfterTermChange(s, t, term', s.asked, w);
    }
  }

  lemma BoundAfterFinish(s: System, t: TermId, o: Outcome, w: Write)
    requires TermEnabled(s, Finish(t, o)) && Bound(TermAfter(s, Finish(t, o)), w)
    ensures Bound(s, w)
  {
    var term := s.terms[t];
    if term.running.phase.Stalled? {
      var term' := term.(running := Idle);
      assert WithTerm(s, t, term') == WithTerm(s, t, term').(asked := s.asked);
      BoundAfterTermChange(s, t, term', s.asked, w);
    } else {
      BoundAfterReport(s, t, term.running.write, o, term.waiting, Idle, w);
    }
  }

  lemma BoundAfterRequest(s: System, v: Write, t: TermId, full: bool, w: Write)
    requires t in s.terms && Bound(TakeRequest(s, v, t, full), w)
    ensures Bound(s, w)
  {
    var term := s.terms[t];
    if term.accepted.Knows(v) {
      if v !in term.accepted.inProgress {
        BoundAfterSend(s, term.tab, v.origin, Result(v.request, t, term.accepted.finished[v]), w);
      }
    } else if full {
      BoundAfterSend(s, term.tab, v.origin, Result(v.request, t, QueueFull), w);
    } else {
      var term' := term.(accepted := A.AfterAdmit(term.accepted, v), waiting := term.waiting + [v]);
      assert WithTerm(s, t, term') == WithTerm(s, t, term').(asked := s.asked);
      BoundAfterTermChange(s, t, term', s.asked, w);
    }
  }

  lemma BoundAfterAnswer(s: System, v: Write, t0: TermId, q: int, w: Write)
    requires t0 in s.terms && Bound(AnswerQuestion(s, v, t0, q, s.terms[t0].tab), w)
    ensures || Bound(s, w)
            || (w == v && IsAsking(s, t0, v) && s.terms[t0].running.phase.question == q && Alive(s, t0)
                && v in s.pending && P.MayBegin(s.pending[v], t0))
  {
    var yes := v in s.pending && P.MayBegin(s.pending[v], t0);
    var s1 := if yes then s.(pending := s.pending[v := P.LetBegin(s.pending[v], t0)]) else s;
    var m := Approval(v.request, t0, yes, q);
    var s' := Send(s1, v.origin, s.terms[t0].tab, m);
    var t :| Alive(s', t) && D.Committed(s', w, t);
    var up := D.Up(s1, w, t);
    assert forall i :: 0 <= i < |up| ==> (up + [m])[i] == up[i];
    if D.Committed(s1, w, t) {
      SameTermsSameBound(s, s1, w);
    }
  }

  lemma BoundAfterTakeApproval(s: System, v: Write, t0: TermId, yes: bool, q: int, w: Write)
    requires t0 in s.terms && Bound(TakeApproval(s, v, t0, yes, q), w)
    ensures Bound(s, w) || (w == v && yes && IsAsking(s, t0, v) && Alive(s, t0))
  {
    var s' := TakeApproval(s, v, t0, yes, q);
    var t :| Alive(s', t) && D.Committed(s', w, t);
    assert t != t0 || s' == s ==> D.Committed(s, w, t);
  }

  lemma BoundAfterResult(s: System, v: Write, t: TermId, o: Outcome, h: P.Host, w: Write)
    requires Bound(TakeResult(s, v, t, o, h), w)
    ensures Bound(s, w)
  {
    if v in s.pending && s.pending[v].addressedTerm == Some(t) {
      if o != NotConnected {
        SameTermsSameBound(s, Settle(s, v, o), w);
      } else {
        var s1 := s.(pending := s.pending[v := P.HandBack(s.pending[v])]);
        BoundAfterHandOver(s1, v, h, w);
        SameTermsSameBound(s, s1, w);
      }
    }
  }

  /** The message `m` is the question `t` is waiting on, and the answer is yes. */
  predicate GetsYes(s: System, from: ClientId, to: ClientId, m: Message, w: Write) {
    && m.Ready? && w == Write(to, m.request)
    && IsAsking(s, m.term, w) && s.terms[m.term].running.phase.question == m.question
    && Alive(s, m.term) && s.terms[m.term].tab == from && w in s.pending && P.MayBegin(s.pending[w], m.term)
  }

  /** The message `m` is a yes, and its term is waiting for one. */
  predicate TakesYes(s: System, from: ClientId, to: ClientId, m: Message, w: Write) {
    && m.Approval? && m.approved && w == Write(from, m.request) && IsAsking(s, m.term, w) && Alive(s, m.term)
    && s.terms[m.term].tab == to
  }

  lemma BoundAfterReceipt(s: System, from: ClientId, to: ClientId, m: Message, h: P.Host, full: bool, w: Write)
    requires Bound(Receive(s, from, to, m, h, full), w)
    ensures Bound(s, w) || GetsYes(s, from, to, m, w) || TakesYes(s, from, to, m, w)
  {
    var t := m.term;
    if t in s.terms {
      match m
      case Request(r, _) =>
        if s.terms[t].tab == to && s.terms[t].accepting {
          BoundAfterRequest(s, Write(from, r), t, full, w);
        }
      case Ready(r, _, q) =>
        if s.terms[t].tab == from {
          BoundAfterAnswer(s, Write(to, r), t, q, w);
        }
      case Approval(r, _, yes, q) =>
        if s.terms[t].tab == to {
          BoundAfterTakeApproval(s, Write(from, r), t, yes, q, w);
        }
      case Result(r, _, o) =>
        if s.terms[t].tab == from {
          BoundAfterResult(s, Write(to, r), t, o, h, w);
        }
    }
  }

  function Popped(s: System, from: ClientId, to: ClientId): System
    requires Channel(s, from, to) != []
  {
    WithChannel(s, from, to, Channel(s, from, to)[1..])
  }

  lemma BoundAfterPop(s: System, from: ClientId, to: ClientId, w: Write)
    requires Channel(s, from, to) != [] && Bound(Popped(s, from, to), w)
    ensures Bound(s, w)
  {
    var c := Channel(s, from, to);
    assert c[..0] + c[1..] == c[1..];
    BoundAfterLoss(s, from, to, 0, w);
  }

  lemma YesIsBound(s: System, from: ClientId, to: ClientId, w: Write)
    requires Channel(s, from, to) != []
    requires TakesYes(s, from, to, Channel(s, from, to)[0], w)
    requires s.terms[Channel(s, from, to)[0].term].running.phase.question == Channel(s, from, to)[0].question
    ensures Bound(s, w)
  {
    var m := Channel(s, from, to)[0];
    assert D.Up(s, w, m.term)[0] == m && D.IsYes(m, w, m.term, m.question);
    assert Alive(s, m.term) && D.Committed(s, w, m.term);
  }

  /** Of the deliveries, only the one in which the issuer says yes to a waiting term binds anything. */
  lemma BoundAfterDelivery(s: System, step: Step, w: Write)
    requires Enabled(s, step) && step.Deliver? && TakesOwnAnswer(s, step) && Bound(After(s, step), w)
    ensures Bound(s, w) || exists t :: Approves(s, step, w, t)
  {
    var m := Channel(s, step.from, step.to)[0];
    var s0 := Popped(s, step.from, step.to);
    BoundAfterReceipt(s0, step.from, step.to, m, step.host, step.full, w);
    if Bound(s0, w) {
      BoundAfterPop(s, step.from, step.to, w);
    } else if GetsYes(s0, step.from, step.to, m, w) {
      assert Approves(s, step, w, m.term);
    } else {
      YesIsBound(s, step.from, step.to, w);
    }
  }

  /** Leave to begin is given in one place only. */
  lemma BoundAfterStep(s: System, step: Step, w: Write)
    requires D.Inv(s) && Enabled(s, step) && TakesOwnAnswer(s, step) && Bound(After(s, step), w)
    ensures Bound(s, w) || exists t :: Approves(s, step, w, t)
  {
    if D.IsIssuerStep(step) {
      BoundAfterIssuerStep(s, step, w);
    } else {
      match step
      case Deliver(_, _, _, _) => BoundAfterDelivery(s, step, w);
      case Lose(from, to, at) => BoundAfterLoss(s, from, to, at, w);
      case Crash(_) => SameTermsSameBound(s, After(s, step), w);
      case _ => BoundAfterTermStep(s, step, w);
    }
  }

  /** A write becomes unstarted when it is issued, and when it is taken back. */
  lemma UnstartedAfterReceipt(s: System, from: ClientId, to: ClientId, m: Message, h: P.Host, full: bool, w: Write)
    requires Unstarted(Receive(s, from, to, m, h, full), w) && !Unstarted(s, w)
    ensures m.Result? && m.outcome == NotConnected && w == Write(to, m.request)
    ensures m.term in s.terms && s.terms[m.term].tab == from
    ensures w in s.pending && s.pending[w].addressedTerm == Some(m.term) && s.pending[w].startedTerm.Some?
  {
  }

  lemma UnstartedAfterTermStep(s: System, step: Step, w: Write)
    requires IsTermStep(step) && TermEnabled(s, step)
    ensures Unstarted(TermAfter(s, step), w) <==> Unstarted(s, w)
  {
  }

  lemma UnstartedAfterOthers(s: System, step: Step, w: Write)
    requires Enabled(s, step) && !step.Deliver? && Unstarted(After(s, step), w)
    ensures Unstarted(s, w) || (step.Issue? && step.write == w)
  {
    if IsTermStep(step) {
      UnstartedAfterTermStep(s, step, w);
    }
  }

  lemma UnstartedAfterStep(s: System, step: Step, w: Write)
    requires Enabled(s, step) && Unstarted(After(s, step), w)
    ensures Unstarted(s, w) || (step.Issue? && step.write == w) || exists t :: TakesBack(s, step, w, t)
  {
    if !step.Deliver? {
      UnstartedAfterOthers(s, step, w);
    } else if !Unstarted(s, w) {
      var m := Channel(s, step.from, step.to)[0];
      var s0 := Popped(s, step.from, step.to);
      UnstartedAfterReceipt(s0, step.from, step.to, m, step.host, step.full, w);
      assert TakesBack(s, step, w, m.term);
    }
  }

  /** Only a write that is bound is begun, at the end of the log. */
  lemma LogAfterStep(s: System, step: Step)
    requires Enabled(s, step)
    ensures || After(s, step).log == s.log
            || exists w, t :: After(s, step).log == s.log + [Begun(w, t)] && Bound(s, w)
  {
    if step.Conclude? && s.terms[step.term].isOpen && s.terms[step.term].running.phase.approved {
      var w := s.terms[step.term].running.write;
      assert Alive(s, step.term) && D.Committed(s, w, step.term);
      assert After(s, step).log == s.log + [Begun(w, step.term)] && Bound(s, w);
    } else if step.Deliver? {
      var c := Channel(s, step.from, step.to);
    }
  }

  // --- The theorem ------------------------------------------------------------------------------

  /** Once a write has been begun, or may be, no earlier one can be any more; so the log is in order. */
  ghost predicate Kept(s: System, o: seq<Write>, tab: ClientId) {
    && NoDuplicates(o)
    && (forall w :: w in o <==> w in s.issued && w.origin == tab)
    && (forall v, w :: Earlier(o, v, w) && (D.EverBegun(s.log, w) || Bound(s, w)) ==> !Unstarted(s, v) && !Bound(s, v))
    && InOrder(s.log, o)
  }

  ghost predicate InOrder(log: seq<Begun>, o: seq<Write>) {
    forall i, j :: 0 <= i < j < |log| ==> !Earlier(o, log[j].write, log[i].write)
  }

  function OrderAfter(o: seq<Write>, step: Step, tab: ClientId): seq<Write> {
    o + if step.Issue? && step.write.origin == tab then [step.write] else []
  }

  lemma EarlierIsAntisymmetric(o: seq<Write>, v: Write, w: Write)
    requires NoDuplicates(o) && Earlier(o, v, w)
    ensures !Earlier(o, w, v) && v != w && v in o && w in o
  {
  }

  /** A new write is the last one. */
  lemma EarlierAfterIssue(o: seq<Write>, u: Write, v: Write, w: Write)
    requires u !in o && Earlier(o + [u], v, w)
    ensures v != u && (w != u ==> Earlier(o, v, w))
  {
    var i, j :| 0 <= i < j < |o + [u]| && (o + [u])[i] == v && (o + [u])[j] == w;
    assert o[i] == v;
    if w != u {
      assert j < |o| && o[j] == w;
    }
  }

  lemma EarlierAfterStep(s: System, o: seq<Write>, tab: ClientId, step: Step, v: Write, w: Write)
    requires Kept(s, o, tab) && Enabled(s, step) && Earlier(OrderAfter(o, step, tab), v, w)
    ensures Earlier(o, v, w) || (step.Issue? && step.write == w && v != w && w !in o)
    ensures step.Issue? ==> step.write != v
  {
    if step.Issue? && step.write.origin == tab {
      EarlierAfterIssue(o, step.write, v, w);
    } else {
      assert o + [] == o;
      assert v in o;
    }
  }

  /** A later write that has been begun, or may be, was so before - or the step is what gave it leave. */
  lemma LaterBefore(s: System, o: seq<Write>, tab: ClientId, step: Step, v: Write, w: Write)
    requires D.Inv(s) && Kept(s, o, tab) && Enabled(s, step) && TakesOwnAnswer(s, step)
    requires Earlier(OrderAfter(o, step, tab), v, w)
    requires D.EverBegun(After(s, step).log, w) || Bound(After(s, step), w)
    ensures Earlier(o, v, w) && !(step.Issue? && step.write == v)
    ensures D.EverBegun(s.log, w) || Bound(s, w) || exists t :: Approves(s, step, w, t)
  {
    EarlierAfterStep(s, o, tab, step, v, w);
    if Bound(After(s, step), w) {
      BoundAfterStep(s, step, w);
    }
    BegunAfterStep(s, step, w);
    if step.Issue? && step.write == w {
      NewIsCold(s, w);
      assert false;
    }
  }

  /** The pair of an earlier and a later write, across a step that ends in `s'`. */
  lemma PairStaysInTurn(s: System, o: seq<Write>, step: Step, s': System, v: Write, w: Write)
    requires InTurn(s, o, step) && Earlier(o, v, w) && v in o && w in o && v != w
    requires D.EverBegun(s.log, w) || Bound(s, w) || exists t :: Approves(s, step, w, t)
    requires D.EverBegun(s.log, w) || Bound(s, w) ==> !Unstarted(s, v) && !Bound(s, v)
    requires Unstarted(s', v) ==> Unstarted(s, v) || exists t :: TakesBack(s, step, v, t)
    requires Bound(s', v) ==> Bound(s, v) || exists t :: Approves(s, step, v, t)
    requires (exists t :: Approves(s, step, v, t)) ==> Mine(s, v)
    requires (exists t :: Approves(s, step, w, t)) ==>
              !(exists t :: Approves(s, step, v, t) || TakesBack(s, step, v, t))
    ensures !Unstarted(s', v) && !Bound(s', v)
  {
  }

  lemma StepKeepsPair(s: System, o: seq<Write>, tab: ClientId, step: Step, v: Write, w: Write)
    requires D.Inv(s) && Kept(s, o, tab) && Enabled(s, step) && TakesOwnAnswer(s, step) && InTurn(s, o, step)
    requires Earlier(OrderAfter(o, step, tab), v, w)
    requires D.EverBegun(After(s, step).log, w) || Bound(After(s, step), w)
    ensures !Unstarted(After(s, step), v) && !Bound(After(s, step), v)
  {
    var s' := After(s, step);
    LaterBefore(s, o, tab, step, v, w);
    EarlierIsAntisymmetric(o, v, w);
    OneIsApproved(s, step, w, v);
    if Unstarted(s', v) {
      UnstartedAfterStep(s, step, v);
    }
    if Bound(s', v) {
      BoundAfterStep(s, step, v);
    }
    PairStaysInTurn(s, o, step, s', v, w);
  }

  /** One message says yes to one write; and only a write still pending and running on is let begin. */
  lemma OneIsApproved(s: System, step: Step, v: Write, w: Write)
    requires v != w && Enabled(s, step)
    ensures (exists t :: Approves(s, step, v, t)) ==> !(exists t :: Approves(s, step, w, t) || TakesBack(s, step, w, t))
    ensures (exists t :: Approves(s, step, w, t)) ==> Mine(s, w)
  {
  }

  lemma BegunAfterStep(s: System, step: Step, w: Write)
    requires Enabled(s, step)
    ensures D.EverBegun(After(s, step).log, w) ==> D.EverBegun(s.log, w) || Bound(s, w)
  {
    LogAfterStep(s, step);
    if D.EverBegun(After(s, step).log, w) && !D.EverBegun(s.log, w) {
      var i :| 0 <= i < |After(s, step).log| && After(s, step).log[i].write == w;
      assert i < |s.log| ==> s.log[i].write == w;
    }
  }

  /** Nothing is known of a write that has not been issued. */
  lemma NewIsCold(s: System, w: Write)
    requires D.Inv(s) && w !in s.issued
    ensures !Bound(s, w) && !D.EverBegun(s.log, w)
    ensures !(exists step, t :: Approves(s, step, w, t))
  {
    forall t | t in s.terms ensures !D.Committed(s, w, t) && !IsAsking(s, t, w) {
      assert D.Local(s, w, t);
    }
  }

  lemma StepKeepsOrder(s: System, o: seq<Write>, tab: ClientId, step: Step)
    requires D.Inv(s) && Kept(s, o, tab) && Enabled(s, step)
    ensures InOrder(After(s, step).log, OrderAfter(o, step, tab))
  {
    var s' := After(s, step);
    var o' := OrderAfter(o, step, tab);
    LogAfterStep(s, step);
    forall i, j | 0 <= i < j < |s'.log| ensures !Earlier(o', s'.log[j].write, s'.log[i].write) {
      var v, w := s'.log[j].write, s'.log[i].write;
      if Earlier(o', v, w) {
        EarlierAfterStep(s, o, tab, step, v, w);
        assert s.log[i].write == w && w in s.issued;
        assert D.EverBegun(s.log, w);
        assert false;
      }
    }
  }

  lemma IssuedAfterReceipt(s: System, from: ClientId, to: ClientId, m: Message, h: P.Host, full: bool)
    ensures Receive(s, from, to, m, h, full).issued == s.issued
  {
  }

  lemma IssuedAfterStep(s: System, step: Step)
    requires Enabled(s, step)
    ensures After(s, step).issued == if step.Issue? then s.issued + {step.write} else s.issued
  {
    if step.Deliver? {
      var c := Channel(s, step.from, step.to);
      IssuedAfterReceipt(WithChannel(s, step.from, step.to, c[1..]), step.from, step.to, c[0], step.host, step.full);
    }
  }

  lemma StepKeepsTurn(s: System, o: seq<Write>, tab: ClientId, step: Step)
    requires D.Inv(s) && Kept(s, o, tab) && Enabled(s, step) && TakesOwnAnswer(s, step) && InTurn(s, o, step)
    ensures Kept(After(s, step), OrderAfter(o, step, tab), tab)
  {
    var s' := After(s, step);
    var o' := OrderAfter(o, step, tab);
    forall v, w | Earlier(o', v, w) && (D.EverBegun(s'.log, w) || Bound(s', w))
      ensures !Unstarted(s', v) && !Bound(s', v)
    {
      StepKeepsPair(s, o, tab, step, v, w);
    }
    StepKeepsOrder(s, o, tab, step);
    IssuedAfterStep(s, step);
  }

  /** No write of the tab is let begin, or taken back, out of turn. */
  ghost predicate IsInTurn(run: seq<System>, steps: seq<Step>, tab: ClientId) {
    && |run| == |steps| + 1
    && forall i :: 0 <= i < |steps| ==> InTurn(run[i], Issued(steps[..i], tab), steps[i])
  }

  lemma IssuedSnoc(steps: seq<Step>, n: nat, tab: ClientId)
    requires n < |steps|
    ensures Issued(steps[..n + 1], tab) == OrderAfter(Issued(steps[..n], tab), steps[n], tab)
  {
    assert steps[..n + 1][..n] == steps[..n];
  }

  lemma {:induction false} RunKeepsTurn(run: seq<System>, steps: seq<Step>, tab: ClientId, n: nat)
    requires D.IsRun(run, steps) && D.TakesOwnAnswers(run, steps) && n <= |steps|
    requires IsInTurn(run, steps, tab)
    ensures Kept(run[n], Issued(steps[..n], tab), tab)
  {
    if n > 0 {
      RunKeepsTurn(run, steps, tab, n - 1);
      D.RunKeepsInv(run, steps, n - 1);
      StepKeepsTurn(run[n - 1], Issued(steps[..n - 1], tab), tab, steps[n - 1]);
      IssuedSnoc(steps, n - 1, tab);
    }
  }

  lemma OneIsEarlier(o: seq<Write>, v: Write, w: Write)
    requires v in o && w in o && v != w
    ensures Earlier(o, v, w) || Earlier(o, w, v)
  {
    var a :| 0 <= a < |o| && o[a] == v;
    var b :| 0 <= b < |o| && o[b] == w;
  }

  /** The device begins the writes of a tab in the order the tab issued them. */
  lemma OrderIsKept(run: seq<System>, steps: seq<Step>, tab: ClientId, i: nat, j: nat)
    requires D.IsRun(run, steps) && D.TakesOwnAnswers(run, steps) && IsInTurn(run, steps, tab)
    requires i < j < |run[|steps|].log|
    requires run[|steps|].log[i].write.origin == run[|steps|].log[j].write.origin == tab
    ensures Earlier(Issued(steps, tab), run[|steps|].log[i].write, run[|steps|].log[j].write)
  {
    var s := run[|steps|];
    RunKeepsTurn(run, steps, tab, |steps|);
    D.RunKeepsInv(run, steps, |steps|);
    assert steps[..|steps|] == steps;
    OneIsEarlier(Issued(steps, tab), s.log[i].write, s.log[j].write);
  }
}
