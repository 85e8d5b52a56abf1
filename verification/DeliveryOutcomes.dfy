/**
 * What the outcome of a write says in any run of the delivery protocol, whatever becomes of late answers: a
 * write that resolved was begun at the device, by the term that reported it.
 */
module DeliveryOutcomes {
  import opened Basics
  import opened Delivery
  import P = PendingWrites
  import A = AcceptedWrites
  import opened DeliverySafety

  /** A message from the term's own tab that the write was written. */
  predicate SaysWritten(s: System, from: ClientId, m: Message) {
    m.Result? && m.outcome == Written && m.term in s.terms && s.terms[m.term].tab == from
  }

  ghost predicate ChannelsHonest(s: System) {
    forall c, i :: c in s.channels && 0 <= i < |s.channels[c]| ==>
      && s.channels[c][i].term in s.terms
      && (SaysWritten(s, c.0, s.channels[c][i]) ==>
            InLog(s, Write(c.1, s.channels[c][i].request), s.channels[c][i].term))
  }

  ghost predicate TermHonest(s: System, t: TermId, term: Term) {
    && (term.running.Busy? && (term.running.phase.Writing? || term.running.phase.Stalled?) ==>
          InLog(s, term.running.write, t))
    && (forall w :: w in term.accepted.finished && term.accepted.finished[w] == Written ==> InLog(s, w, t))
  }

  /** Whoever says that a write was written, it was begun there. */
  ghost predicate Honest(s: System) {
    && ChannelsHonest(s)
    && (forall t :: t in s.terms ==> TermHonest(s, t, s.terms[t]))
    && (forall w :: w in s.settled && s.settled[w] == Written ==> EverBegun(s.log, w))
  }

  lemma SendKeepsHonest(s: System, from: ClientId, to: ClientId, m: Message)
    requires Honest(s) && m.term in s.terms && (SaysWritten(s, from, m) ==> InLog(s, Write(to, m.request), m.term))
    ensures Honest(Send(s, from, to, m))
  {
    var s' := Send(s, from, to, m);
    forall c, i | c in s'.channels && 0 <= i < |s'.channels[c]|
      ensures s'.channels[c][i].term in s'.terms
      ensures SaysWritten(s', c.0, s'.channels[c][i]) ==>
                InLog(s', Write(c.1, s'.channels[c][i].request), s'.channels[c][i].term)
    {
      if c == (from, to) && i < |Channel(s, from, to)| {
        assert s'.channels[c][i] == s.channels[c][i];
      }
    }
  }

  lemma CutKeepsHonest(s: System, from: ClientId, to: ClientId, at: nat)
    requires Honest(s) && at < |Channel(s, from, to)|
    ensures Honest(WithChannel(s, from, to, Channel(s, from, to)[..at] + Channel(s, from, to)[at + 1..]))
  {
    var c := Channel(s, from, to);
    var c' := c[..at] + c[at + 1..];
    assert forall i :: 0 <= i < |c'| ==> c'[i] == c[if i < at then i else i + 1];
  }

  /** The term changes, and the log may have grown. */
  lemma TermKeepsHonest(s: System, t: TermId, term: Term, s': System)
    requires Honest(s) && t in s.terms && term.tab == s.terms[t].tab
    requires s'.terms == s.terms[t := term] && s'.channels == s.channels && s'.settled == s.settled && s.log <= s'.log
    requires TermHonest(s', t, term)
    ensures Honest(s')
  {
    forall w, x ensures InLog(s, w, x) ==> InLog(s', w, x) {
    }
    forall w | EverBegun(s.log, w) ensures EverBegun(s'.log, w) {
      var i :| 0 <= i < |s.log| && s.log[i].write == w;
      assert s'.log[i].write == w;
    }
    forall x | x in s'.terms ensures TermHonest(s', x, s'.terms[x]) {
      assert x != t ==> TermHonest(s, x, s.terms[x]);
    }
  }

  lemma ReportKeepsHonest(s: System, t: TermId, w: Write, o: Outcome, waiting: seq<Write>, running: Running)
    requires Honest(s) && t in s.terms && (o == Written ==> InLog(s, w, t))
    requires running == s.terms[t].running || running.Idle? || (running == Busy(w, Stalled) && InLog(s, w, t))
    ensures Honest(Report(s, t, w, o, waiting, running))
  {
    var term := s.terms[t];
    var accepted := A.AfterFinish(term.accepted, w, o, A.MAX_REMEMBERED_FINISHED_WRITES);
    var term' := term.(accepted := accepted, waiting := waiting, running := running);
    var s1 := WithTerm(s, t, term');
    FinishingIsHonest(s, t, w, o);
    TermKeepsHonest(s, t, term', s1);
    SendKeepsHonest(s1, term.tab, w.origin, Result(w.request, t, o));
  }

  lemma FinishingIsHonest(s: System, t: TermId, w: Write, o: Outcome)
    requires t in s.terms && TermHonest(s, t, s.terms[t]) && (o == Written ==> InLog(s, w, t))
    ensures var accepted := A.AfterFinish(s.terms[t].accepted, w, o, A.MAX_REMEMBERED_FINISHED_WRITES);
            forall x :: x in accepted.finished && accepted.finished[x] == Written ==> InLog(s, x, t)
  {
  }

  lemma QueueStepKeepsHonest(s: System, step: Step)
    requires Honest(s) && IsTermStep(step) && TermEnabled(s, step) && !IsJobStep(step)
    ensures Honest(TermAfter(s, step))
  {
    var t := step.term;
    match step
    case StartTerm(_, tab) => StartTermKeepsHonest(s, t, tab);
    case StopTerm(_) => TermKeepsHonest(s, t, s.terms[t].(accepting := false), TermAfter(s, step));
    case Connection(_, isOpen) => TermKeepsHonest(s, t, s.terms[t].(isOpen := isOpen), TermAfter(s, step));
    case StartJob(_) =>
      var term := s.terms[t];
      TermKeepsHonest(s, t, term.(waiting := term.waiting[1..], running := Busy(term.waiting[0], Next)),
                      TermAfter(s, step));
    case Withdraw(_, at) =>
      var term := s.terms[t];
      ReportKeepsHonest(s, t, term.waiting[at], Timeout(false), term.waiting[..at] + term.waiting[at + 1..],
                        term.running);
  }

  lemma StartTermKeepsHonest(s: System, t: TermId, tab: ClientId)
    requires Honest(s) && t !in s.terms
    ensures Honest(WithTerm(s, t, Term(tab, true, false, A.Empty(), [], Idle)))
  {
    var s' := WithTerm(s, t, Term(tab, true, false, A.Empty(), [], Idle));
    forall c, i | c in s'.channels && 0 <= i < |s'.channels[c]|
      ensures s'.channels[c][i].term in s'.terms
      ensures SaysWritten(s', c.0, s'.channels[c][i]) ==>
                InLog(s', Write(c.1, s'.channels[c][i].request), s'.channels[c][i].term)
    {
      assert s.channels[c][i].term in s.terms;
    }
    forall x | x in s'.terms ensures TermHonest(s', x, s'.terms[x]) {
      assert x != t ==> TermHonest(s, x, s.terms[x]);
    }
  }

  lemma JobStepKeepsHonest(s: System, step: Step)
    requires Honest(s) && IsTermStep(step) && TermEnabled(s, step) && IsJobStep(step)
    ensures Honest(TermAfter(s, step))
  {
    var t := step.term;
    var term := s.terms[t];
    var w := term.running.write;
    assert TermHonest(s, t, term);
    match step
    case Late(_) => ReportKeepsHonest(s, t, w, Timeout(false), term.waiting, Idle);
    case Ask(_) =>
      if !term.isOpen {
        ReportKeepsHonest(s, t, w, NotConnected, term.waiting, Idle);
      } else {
        var term' := term.(running := Busy(w, Asking(s.asked)));
        var s1 := WithTerm(s, t, term').(asked := s.asked + 1);
        TermKeepsHonest(s, t, term', s1);
        SendKeepsHonest(s1, term.tab, w.origin, Ready(w.request, t, s.asked));
      }
    case StopWaiting(_) =>
      TermKeepsHonest(s, t, term.(running := Busy(w, Answered(false, term.running.phase.question))),
                      TermAfter(s, step));
    case Conclude(_) => ConcludeKeepsHonest(s, t);
    case Stall(_) => ReportKeepsHonest(s, t, w, Timeout(true), term.waiting, Busy(w, Stalled));
    case Finish(_, o) =>
      if term.running.phase.Stalled? {
        TermKeepsHonest(s, t, term.(running := Idle), TermAfter(s, step));
      } else {
        ReportKeepsHonest(s, t, w, o, term.waiting, Idle);
      }
  }

  lemma ConcludeKeepsHonest(s: System, t: TermId)
    requires Honest(s) && TermEnabled(s, Conclude(t))
    ensures Honest(TermAfter(s, Conclude(t)))
  {
    var term := s.terms[t];
    var w := term.running.write;
    if !term.isOpen {
      ReportKeepsHonest(s, t, w, NotConnected, term.waiting, Idle);
    } else if !term.running.phase.approved {
      ReportKeepsHonest(s, t, w, Timeout(false), term.waiting, Idle);
    } else {
      var s' := TermAfter(s, Conclude(t));
      assert s'.log[|s.log|] == Begun(w, t);
      assert TermHonest(s, t, term);
      TermKeepsHonest(s, t, term.(running := Busy(w, Writing)), s');
    }
  }

  lemma RequestKeepsHonest(s: System, w: Write, t: TermId, full: bool)
    requires Honest(s) && t in s.terms
    ensures Honest(TakeRequest(s, w, t, full))
  {
    var term := s.terms[t];
    assert TermHonest(s, t, term);
    if term.accepted.Knows(w) {
      if w !in term.accepted.inProgress {
        SendKeepsHonest(s, term.tab, w.origin, Result(w.request, t, term.accepted.finished[w]));
      }
    } else if full {
      SendKeepsHonest(s, term.tab, w.origin, Result(w.request, t, QueueFull));
    } else {
      var term' := term.(accepted := A.AfterAdmit(term.accepted, w), waiting := term.waiting + [w]);
      TermKeepsHonest(s, t, term', WithTerm(s, t, term'));
    }
  }

  /** Only records of pending writes change, or writes are settled by a truthful outcome. */
  lemma RecordsKeepHonest(s: System, s': System)
    requires Honest(s)
    requires s'.terms == s.terms && s'.channels == s.channels && s'.log == s.log
    requires forall w :: w in s'.settled && s'.settled[w] == Written ==>
               (w in s.settled && s.settled[w] == Written) || EverBegun(s.log, w)
    ensures Honest(s')
  {
    forall x | x in s'.terms ensures TermHonest(s', x, s'.terms[x]) {
      assert TermHonest(s, x, s.terms[x]);
    }
  }

  lemma HandOverKeepsHonest(s: System, w: Write, h: P.Host)
    requires Honest(s) && w in s.pending
    ensures Honest(HandOver(s, w, h))
  {
    var s1 := s.(pending := s.pending[w := P.HandOn(s.pending[w], h)]);
    RecordsKeepHonest(s, s1);
    if P.MayHandOn(s.pending[w], h) && h.currentTerm.value in s.terms {
      SendKeepsHonest(s1, w.origin, s.terms[h.currentTerm.value].tab, Request(w.request, h.currentTerm.value));
    }
  }

  lemma ResultKeepsHonest(s: System, w: Write, t: TermId, o: Outcome, h: P.Host)
    requires Honest(s) && (o == Written ==> InLog(s, w, t))
    ensures Honest(TakeResult(s, w, t, o, h))
  {
    if w in s.pending && s.pending[w].addressedTerm == Some(t) {
      if o != NotConnected {
        if o == Written {
          var i :| 0 <= i < |s.log| && s.log[i] == Begun(w, t);
        }
        RecordsKeepHonest(s, Settle(s, w, o));
      } else {
        var s1 := s.(pending := s.pending[w := P.HandBack(s.pending[w])]);
        RecordsKeepHonest(s, s1);
        HandOverKeepsHonest(s1, w, h);
      }
    }
  }

  lemma DeliveryKeepsHonest(s: System, from: ClientId, to: ClientId, h: P.Host, full: bool)
    requires Honest(s) && Channel(s, from, to) != []
    ensures var c := Channel(s, from, to);
            Honest(Receive(WithChannel(s, from, to, c[1..]), from, to, c[0], h, full))
  {
    var c := Channel(s, from, to);
    var m := c[0];
    var s0 := WithChannel(s, from, to, c[1..]);
    assert c[..0] + c[1..] == c[1..];
    CutKeepsHonest(s, from, to, 0);
    assert s.channels[(from, to)][0] == m;
    var t := m.term;
    match m
    case Request(r, _) => RequestKeepsHonest(s0, Write(from, r), t, full);
    case Ready(r, _, q) =>
      var w := Write(to, r);
      var yes := w in s0.pending && P.MayBegin(s0.pending[w], t);
      var s1 := if yes then s0.(pending := s0.pending[w := P.LetBegin(s0.pending[w], t)]) else s0;
      RecordsKeepHonest(s0, s1);
      SendKeepsHonest(s1, to, from, Approval(r, t, yes, q));
    case Approval(r, _, yes, q) =>
      if IsAsking(s0, t, Write(from, r)) {
        assert TermHonest(s0, t, s0.terms[t]);
        var term' := s0.terms[t].(running := Busy(Write(from, r), Answered(yes, q)));
        TermKeepsHonest(s0, t, term', WithTerm(s0, t, term'));
      }
    case Result(r, _, o) =>
      if s.terms[t].tab == from {
        ResultKeepsHonest(s0, Write(to, r), t, o, h);
      }
  }

  lemma IssuerStepKeepsHonest(s: System, step: Step)
    requires Honest(s) && Enabled(s, step) && IsIssuerStep(step)
    ensures Honest(After(s, step))
  {
    match step
    case Issue(w, h) =>
      var s1 := s.(issued := s.issued + {w}, pending := s.pending[w := P.FRESH]);
      RecordsKeepHonest(s, s1);
      HandOverKeepsHonest(s1, w, h);
    case HandOn(w, h) => HandOverKeepsHonest(s, w, h);
    case Resend(w, h) =>
      var s1 := s.(pending := s.pending[w := P.TakeBack(s.pending[w], h)]);
      RecordsKeepHonest(s, s1);
      HandOverKeepsHonest(s1, w, h);
    case TermEnded(w, _) => RecordsKeepHonest(s, Settle(s, w, OwnerLost));
    case Expire(w) => RecordsKeepHonest(s, Settle(s, w, P.OnDeadline(s.pending[w])));
    case Release(w) => RecordsKeepHonest(s, Settle(s, w, Released));
  }

  lemma CrashKeepsHonest(s: System, step: Step)
    requires Honest(s) && step.Crash?
    ensures Honest(After(s, step))
  {
    RecordsKeepHonest(s, After(s, step));
  }

  lemma StepKeepsHonest(s: System, step: Step)
    requires Honest(s) && Enabled(s, step)
    ensures Honest(After(s, step))
  {
    if IsIssuerStep(step) {
      IssuerStepKeepsHonest(s, step);
    } else if IsTermStep(step) {
      if IsJobStep(step) {
        JobStepKeepsHonest(s, step);
      } else {
        QueueStepKeepsHonest(s, step);
      }
    } else {
      match step
      case Deliver(from, to, h, full) => DeliveryKeepsHonest(s, from, to, h, full);
      case Lose(from, to, at) => CutKeepsHonest(s, from, to, at);
      case Crash(_) => CrashKeepsHonest(s, step);
    }
  }

  lemma {:induction false} RunKeepsHonest(run: seq<System>, steps: seq<Step>, n: nat)
    requires IsRun(run, steps) && n <= |steps|
    ensures Honest(run[n])
  {
    if n > 0 {
      RunKeepsHonest(run, steps, n - 1);
      StepKeepsHonest(run[n - 1], steps[n - 1]);
    }
  }

  /** A write that resolved had been begun, and stays so, in any run whatever. */
  lemma ResolvedWasBegun(run: seq<System>, steps: seq<Step>, w: Write, m: nat, n: nat)
    requires IsRun(run, steps) && m <= n <= |steps|
    requires w in run[m].settled && run[m].settled[w] == Written
    ensures EverBegun(run[m].log, w) && EverBegun(run[n].log, w)
    ensures w in run[n].settled && run[n].settled[w] == Written
  {
    RunKeepsHonest(run, steps, m);
    RunKeepsHonest(run, steps, n);
    SettledIsFinal(run, steps, w, m, n);
  }
}
