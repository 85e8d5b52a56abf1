/**
 * The writes of one tab need not reach the device in the order it issued them: three runs that begin the second
 * of two writes first, each yes being taken for its own question.
 *
 * In the first run nothing is lost. The first write is handed to a term whose tab dies before it acts; until the
 * issuer knows that this term has ended it holds that write back, but a write issued meanwhile goes to the next
 * term at once. In the second run there is one term only: it asks about the first write, its port closes and
 * opens again, and the write is handed back and sent again - behind the second. In the third a request is lost.
 */
module OrderCounterexample {
  import opened Basics
  import opened Delivery
  import P = PendingWrites
  import A = AcceptedWrites
  import D = DeliverySafety
  import opened OrderSafety
  import opened DeliveryCounterexample

  const W1 := Write(ISSUER, 1)
  const W2 := Write(ISSUER, 2)

  /** The next term is current, and the end of the old one is not known yet. */
  const OLD_NOT_ENDED := P.Host(true, Some(NEW), {})
  const ONLY_NEW := P.Host(true, Some(NEW), {})

  const WITH_OLD := P.Pending(None, Some(OLD), true)
  const WITH_NEW := P.Pending(None, Some(NEW), true)

  /** A run in which every yes is taken for its own question, and the issuer has issued `o`. */
  ghost predicate Run(run: seq<System>, steps: seq<Step>, o: seq<Write>, s: System) {
    EndsIn(run, steps, s) && D.TakesOwnAnswers(run, steps) && OrderSafety.Issued(steps, ISSUER) == o
  }

  lemma Go(run: seq<System>, steps: seq<Step>, o: seq<Write>, s: System, step: Step)
    returns (run': seq<System>, steps': seq<Step>, s': System)
    requires Run(run, steps, o, s) && Enabled(s, step) && TakesOwnAnswer(s, step)
    ensures Run(run', steps', OrderAfter(o, step, ISSUER), s') && s' == After(s, step)
    ensures step.Issue? || Run(run', steps', o, s')
  {
    s' := After(s, step);
    run', steps' := run + [s'], steps + [step];
    assert steps'[..|steps|] == steps && o + [] == o;
    forall i | 0 <= i < |steps'| ensures TakesOwnAnswer(run'[i], steps'[i]) {
      assert i < |steps| ==> run'[i] == run[i] && steps'[i] == steps[i];
    }
  }

  /** The channels between the issuer and the second tab, and the term that tab holds. */
  ghost predicate Sees(s: System, up: seq<Message>, down: seq<Message>, isOpen: bool, waiting: seq<Write>,
                       running: Running, log: seq<Begun>, asked: int) {
    && Channel(s, ISSUER, SECOND) == up && Channel(s, SECOND, ISSUER) == down
    && NEW in s.terms && s.terms[NEW].tab == SECOND && s.terms[NEW].accepting && s.terms[NEW].isOpen == isOpen
    && s.terms[NEW].waiting == waiting && s.terms[NEW].running == running
    && s.log == log && s.asked == asked && ISSUER !in s.gone && SECOND !in s.gone
  }

  ghost predicate IsNew(s: System, w: Write) { NEW in s.terms && !s.terms[NEW].accepted.Knows(w) }

  /** A write that has arrived at the idle tab is asked about. */
  lemma IsAsked(run: seq<System>, steps: seq<Step>, o: seq<Write>, s: System, w: Write,
                up: seq<Message>, down: seq<Message>, log: seq<Begun>, asked: int)
    returns (run': seq<System>, steps': seq<Step>, s': System)
    requires Run(run, steps, o, s) && w.origin == ISSUER && IsNew(s, w)
    requires Sees(s, [Request(w.request, NEW)] + up, down, true, [], Idle, log, asked)
    ensures Run(run', steps', o, s') && s'.pending == s.pending
    ensures Sees(s', up, down + [Ready(w.request, NEW, asked)], true, [], Busy(w, Asking(asked)), log, asked + 1)
    ensures forall x :: x != w && IsNew(s, x) ==> IsNew(s', x)
    ensures s'.terms[NEW].accepted == A.AfterAdmit(s.terms[NEW].accepted, w)
  {
    assert ([Request(w.request, NEW)] + up)[1..] == up;
    run', steps', s' := Go(run, steps, o, s, Deliver(ISSUER, SECOND, NOTHING_OPEN, false));
    assert Sees(s', up, down, true, [w], Idle, log, asked);
    run', steps', s' := Go(run', steps', o, s', StartJob(NEW));
    assert Sees(s', up, down, true, [], Busy(w, Next), log, asked);
    run', steps', s' := Go(run', steps', o, s', Ask(NEW));
  }

  /** Its issuer lets it begin, and it does. */
  lemma IsBegun(run: seq<System>, steps: seq<Step>, o: seq<Write>, s: System, w: Write, log: seq<Begun>, asked: int)
    returns (run': seq<System>, steps': seq<Step>, s': System)
    requires Run(run, steps, o, s) && w.origin == ISSUER && w in s.pending && P.MayBegin(s.pending[w], NEW)
    requires Sees(s, [], [Ready(w.request, NEW, asked - 1)], true, [], Busy(w, Asking(asked - 1)), log, asked)
    ensures Run(run', steps', o, s') && s'.pending == s.pending[w := P.LetBegin(s.pending[w], NEW)]
    ensures Sees(s', [], [], true, [], Busy(w, Writing), log + [Begun(w, NEW)], asked)
    ensures forall x :: x != w && IsNew(s, x) ==> IsNew(s', x)
  {
    run', steps', s' := Go(run, steps, o, s, Deliver(SECOND, ISSUER, NOTHING_OPEN, false));
    assert Sees(s', [Approval(w.request, NEW, true, asked - 1)], [], true, [], Busy(w, Asking(asked - 1)), log, asked);
    run', steps', s' := IsLetBegin(run', steps', o, s', w, [], log, asked);
  }

  lemma IsLetBegin(run: seq<System>, steps: seq<Step>, o: seq<Write>, s: System, w: Write, waiting: seq<Write>,
                   log: seq<Begun>, asked: int)
    returns (run': seq<System>, steps': seq<Step>, s': System)
    requires Run(run, steps, o, s) && w.origin == ISSUER
    requires Sees(s, [Approval(w.request, NEW, true, asked - 1)], [], true, waiting, Busy(w, Asking(asked - 1)), log,
                  asked)
    ensures Run(run', steps', o, s') && s'.pending == s.pending
    ensures Sees(s', [], [], true, waiting, Busy(w, Writing), log + [Begun(w, NEW)], asked)
    ensures forall x :: x != w && IsNew(s, x) ==> IsNew(s', x)
  {
    run', steps', s' := Go(run, steps, o, s, Deliver(ISSUER, SECOND, NOTHING_OPEN, false));
    assert Sees(s', [], [], true, waiting, Busy(w, Answered(true, asked - 1)), log, asked);
    run', steps', s' := Go(run', steps', o, s', Conclude(NEW));
  }

  /** It is written, and its issuer hears so. */
  lemma IsDone(run: seq<System>, steps: seq<Step>, o: seq<Write>, s: System, w: Write, waiting: seq<Write>,
               log: seq<Begun>, asked: int)
    returns (run': seq<System>, steps': seq<Step>, s': System)
    requires Run(run, steps, o, s) && w.origin == ISSUER && w in s.pending && s.pending[w].addressedTerm == Some(NEW)
    requires Sees(s, [], [], true, waiting, Busy(w, Writing), log, asked)
    ensures Run(run', steps', o, s') && s'.pending == s.pending - {w}
    ensures Sees(s', [], [], true, waiting, Idle, log, asked)
    ensures forall x :: x != w && IsNew(s, x) ==> IsNew(s', x)
  {
    run', steps', s' := Go(run, steps, o, s, Finish(NEW, Written));
    assert Sees(s', [], [Result(w.request, NEW, Written)], true, waiting, Idle, log, asked);
    run', steps', s' := Go(run', steps', o, s', Deliver(SECOND, ISSUER, NOTHING_OPEN, false));
  }

  /** The second write is asked about, begun and done, while the first is not on its way. */
  lemma SecondIsWritten(run: seq<System>, steps: seq<Step>, s: System)
    returns (run': seq<System>, steps': seq<Step>, s': System)
    requires Run(run, steps, [W1, W2], s) && IsNew(s, W1) && IsNew(s, W2)
    requires Sees(s, [Request(2, NEW)], [], true, [], Idle, [], 0)
    requires W1 in s.pending && W2 in s.pending && s.pending[W2] == WITH_NEW
    ensures Run(run', steps', [W1, W2], s') && IsNew(s', W1) && s'.pending == s.pending - {W2}
    ensures Sees(s', [], [], true, [], Idle, [Begun(W2, NEW)], 1)
  {
    assert [Request(2, NEW)] + [] == [Request(2, NEW)];
    run', steps', s' := IsAsked(run, steps, [W1, W2], s, W2, [], [], [], 0);
    assert [] + [Ready(2, NEW, 0)] == [Ready(2, NEW, 0)];
    run', steps', s' := IsBegun(run', steps', [W1, W2], s', W2, [], 1);
    assert [] + [Begun(W2, NEW)] == [Begun(W2, NEW)];
    run', steps', s' := IsDone(run', steps', [W1, W2], s', W2, [], [Begun(W2, NEW)], 1);
  }

  /** Then the first is on its way at last, and is begun too. */
  lemma FirstFollows(run: seq<System>, steps: seq<Step>, s: System)
    returns (run': seq<System>, steps': seq<Step>, s': System)
    requires Run(run, steps, [W1, W2], s) && IsNew(s, W1)
    requires Sees(s, [Request(1, NEW)], [], true, [], Idle, [Begun(W2, NEW)], 1)
    requires W1 in s.pending && s.pending[W1] == WITH_NEW
    ensures Run(run', steps', [W1, W2], s') && s'.log == [Begun(W2, NEW), Begun(W1, NEW)]
    ensures !InOrder(s'.log, [W1, W2])
  {
    assert [Request(1, NEW)] + [] == [Request(1, NEW)];
    run', steps', s' := IsAsked(run, steps, [W1, W2], s, W1, [], [], [Begun(W2, NEW)], 1);
    assert [] + [Ready(1, NEW, 1)] == [Ready(1, NEW, 1)];
    run', steps', s' := IsBegun(run', steps', [W1, W2], s', W1, [Begun(W2, NEW)], 2);
    ReversedIsNotInOrder(s'.log);
  }

  lemma ReversedIsNotInOrder(log: seq<Begun>)
    requires log == [Begun(W2, NEW), Begun(W1, NEW)]
    ensures !InOrder(log, [W1, W2])
  {
    var o := [W1, W2];
    assert o[0] == W1 && o[1] == W2 && Earlier(o, W1, W2);
    assert log[0].write == W2 && log[1].write == W1;
  }

  // --- Stranded with a term that has died -------------------------------------------------------

  lemma FirstIsStranded() returns (run: seq<System>, steps: seq<Step>, s: System)
    ensures Run(run, steps, [W1], s) && IsNew(s, W1) && IsNew(s, W2)
    ensures s.pending == map[W1 := WITH_OLD] && s.issued == {W1}
    ensures Sees(s, [], [], true, [], Idle, [], 0)
  {
    run, steps, s := FirstIsIssued();
    run, steps, s := Go(run, steps, [W1], s, Crash(FIRST));
    assert s.pending == map[W1 := WITH_OLD];
    run, steps, s := Go(run, steps, [W1], s, StartTerm(NEW, SECOND));
    run, steps, s := Go(run, steps, [W1], s, Connection(NEW, true));
  }

  lemma FirstIsIssued() returns (run: seq<System>, steps: seq<Step>, s: System)
    ensures Run(run, steps, [W1], s) && s.issued == {W1} && s.pending == map[W1 := WITH_OLD]
    ensures NEW !in s.terms && s.gone == {} && s.log == [] && s.asked == 0
    ensures Channel(s, ISSUER, SECOND) == [] && Channel(s, SECOND, ISSUER) == []
  {
    run, steps, s := [Start], [], Start;
    run, steps, s := Go(run, steps, [], s, StartTerm(OLD, FIRST));
    run, steps, s := Go(run, steps, [], s, Connection(OLD, true));
    run, steps, s := Go(run, steps, [], s, Issue(W1, OLD_IS_OPEN));
    assert [] + [W1] == [W1];
  }

  lemma SecondGoesAhead() returns (run: seq<System>, steps: seq<Step>, s: System)
    ensures Run(run, steps, [W1, W2], s) && IsNew(s, W1) && IsNew(s, W2)
    ensures s.pending == map[W1 := WITH_OLD, W2 := WITH_NEW]
    ensures Sees(s, [Request(2, NEW)], [], true, [], Idle, [], 0)
  {
    run, steps, s := FirstIsStranded();
    run, steps, s := Go(run, steps, [W1], s, Issue(W2, OLD_NOT_ENDED));
    assert [W1] + [W2] == [W1, W2];
  }

  /** The device has begun the second write before the first, although nothing was lost or handed back. */
  lemma SecondIsBegunFirst() returns (run: seq<System>, steps: seq<Step>, s: System)
    ensures Run(run, steps, [W1, W2], s) && s.log == [Begun(W2, NEW), Begun(W1, NEW)]
    ensures !InOrder(s.log, [W1, W2])
  {
    run, steps, s := SecondGoesAhead();
    run, steps, s := SecondIsWritten(run, steps, s);
    run, steps, s := Go(run, steps, [W1, W2], s, HandOn(W1, NEW_IS_OPEN));
    run, steps, s := FirstFollows(run, steps, s);
  }

  // --- One term, nothing lost -------------------------------------------------------------------

  lemma NewIsOpen() returns (run: seq<System>, steps: seq<Step>, s: System)
    ensures Run(run, steps, [], s) && s.terms.Keys == {NEW} && s.terms[NEW].accepted == A.Empty()
    ensures s.pending == map[] && s.issued == {} && Sees(s, [], [], true, [], Idle, [], 0)
  {
    run, steps, s := [Start], [], Start;
    run, steps, s := Go(run, steps, [], s, StartTerm(NEW, SECOND));
    run, steps, s := Go(run, steps, [], s, Connection(NEW, true));
  }

  lemma OneIsIssued() returns (run: seq<System>, steps: seq<Step>, s: System)
    ensures Run(run, steps, [W1], s) && s.terms.Keys == {NEW} && s.terms[NEW].accepted == A.Empty()
    ensures s.pending == map[W1 := WITH_NEW] && s.issued == {W1}
    ensures Sees(s, [Request(1, NEW)], [], true, [], Idle, [], 0)
  {
    run, steps, s := NewIsOpen();
    run, steps, s := Go(run, steps, [], s, Issue(W1, ONLY_NEW));
    assert [] + [W1] == [W1];
  }

  lemma BothAreIssued() returns (run: seq<System>, steps: seq<Step>, s: System)
    ensures Run(run, steps, [W1, W2], s) && s.terms.Keys == {NEW} && s.terms[NEW].accepted == A.Empty()
    ensures s.pending == map[W1 := WITH_NEW, W2 := WITH_NEW]
    ensures Sees(s, [Request(1, NEW), Request(2, NEW)], [], true, [], Idle, [], 0)
  {
    run, steps, s := OneIsIssued();
    run, steps, s := Go(run, steps, [W1], s, Issue(W2, ONLY_NEW));
    assert [W1] + [W2] == [W1, W2];
  }

  lemma FirstIsAsked() returns (run: seq<System>, steps: seq<Step>, s: System)
    ensures Run(run, steps, [W1, W2], s) && IsNew(s, W2) && s.terms[NEW].accepted == A.AfterAdmit(A.Empty(), W1)
    ensures s.pending == map[W1 := WITH_NEW, W2 := WITH_NEW]
    ensures Sees(s, [Request(2, NEW)], [Ready(1, NEW, 0)], true, [], Busy(W1, Asking(0)), [], 1)
  {
    run, steps, s := BothAreIssued();
    assert [Request(1, NEW)] + [Request(2, NEW)] == [Request(1, NEW), Request(2, NEW)];
    run, steps, s := IsAsked(run, steps, [W1, W2], s, W1, [Request(2, NEW)], [], [], 0);
    assert [] + [Ready(1, NEW, 0)] == [Ready(1, NEW, 0)];
  }

  /** The port closes, and the wait for an answer ends. */
  lemma FirstIsGivenUp() returns (run: seq<System>, steps: seq<Step>, s: System)
    ensures Run(run, steps, [W1, W2], s) && IsNew(s, W2) && s.terms[NEW].accepted == A.AfterAdmit(A.Empty(), W1)
    ensures s.pending == map[W1 := WITH_NEW, W2 := WITH_NEW]
    ensures Sees(s, [Request(2, NEW)], [Ready(1, NEW, 0)], false, [], Busy(W1, Answered(false, 0)), [], 1)
  {
    run, steps, s := FirstIsAsked();
    run, steps, s := Go(run, steps, [W1, W2], s, Connection(NEW, false));
    assert Sees(s, [Request(2, NEW)], [Ready(1, NEW, 0)], false, [], Busy(W1, Asking(0)), [], 1);
    run, steps, s := Go(run, steps, [W1, W2], s, StopWaiting(NEW));
  }

  /** The question ends as `NOT_CONNECTED`. */
  lemma FirstIsNotConnected() returns (run: seq<System>, steps: seq<Step>, s: System)
    ensures Run(run, steps, [W1, W2], s) && IsNew(s, W1) && IsNew(s, W2)
    ensures s.pending == map[W1 := WITH_NEW, W2 := WITH_NEW]
    ensures Sees(s, [Request(2, NEW)], [Ready(1, NEW, 0), Result(1, NEW, NotConnected)], false, [], Idle, [], 1)
  {
    run, steps, s := FirstIsGivenUp();
    run, steps, s := Go(run, steps, [W1, W2], s, Conclude(NEW));
  }

  /** The port opens again, and the second is asked about. */
  lemma SecondIsAsked() returns (run: seq<System>, steps: seq<Step>, s: System)
    ensures Run(run, steps, [W1, W2], s) && IsNew(s, W1)
    ensures s.pending == map[W1 := WITH_NEW, W2 := WITH_NEW]
    ensures Sees(s, [], [Ready(1, NEW, 0), Result(1, NEW, NotConnected), Ready(2, NEW, 1)], true, [],
                 Busy(W2, Asking(1)), [], 2)
  {
    run, steps, s := FirstIsNotConnected();
    run, steps, s := Go(run, steps, [W1, W2], s, Connection(NEW, true));
    var down := [Ready(1, NEW, 0), Result(1, NEW, NotConnected)];
    assert [Request(2, NEW)] + [] == [Request(2, NEW)];
    assert Sees(s, [Request(2, NEW)] + [], down, true, [], Idle, [], 1);
    run, steps, s := IsAsked(run, steps, [W1, W2], s, W2, [], down, [], 1);
    assert down + [Ready(2, NEW, 1)] == [Ready(1, NEW, 0), Result(1, NEW, NotConnected), Ready(2, NEW, 1)];
  }

  /** The issuer answers the first question. */
  lemma FirstIsAnsweredLate() returns (run: seq<System>, steps: seq<Step>, s: System)
    ensures Run(run, steps, [W1, W2], s) && IsNew(s, W1)
    ensures s.pending == map[W1 := P.Pending(Some(NEW), Some(NEW), true), W2 := WITH_NEW]
    ensures Sees(s, [Approval(1, NEW, true, 0)], [Result(1, NEW, NotConnected), Ready(2, NEW, 1)], true, [],
                 Busy(W2, Asking(1)), [], 2)
  {
    run, steps, s := SecondIsAsked();
    run, steps, s := Go(run, steps, [W1, W2], s, Deliver(SECOND, ISSUER, ONLY_NEW, false));
  }

  /** Then it takes that write back and sends it again. */
  lemma FirstIsSentAgain() returns (run: seq<System>, steps: seq<Step>, s: System)
    ensures Run(run, steps, [W1, W2], s) && IsNew(s, W1)
    ensures s.pending == map[W1 := WITH_NEW, W2 := WITH_NEW]
    ensures Sees(s, [Approval(1, NEW, true, 0), Request(1, NEW)], [Ready(2, NEW, 1)], true, [],
                 Busy(W2, Asking(1)), [], 2)
  {
    run, steps, s := FirstIsAnsweredLate();
    ghost var was := s;
    run, steps, s := Go(run, steps, [W1, W2], s, Deliver(SECOND, ISSUER, ONLY_NEW, false));
    var popped := Popped(was, SECOND, ISSUER);
    assert P.HandOn(P.HandBack(popped.pending[W1]), ONLY_NEW) == WITH_NEW;
    assert s == TakeResult(popped, W1, NEW, NotConnected, ONLY_NEW);
    assert s.pending == was.pending[W1 := WITH_NEW];
  }

  /** The second is let begin; the first waits behind it. */
  lemma FirstWaitsBehindSecond() returns (run: seq<System>, steps: seq<Step>, s: System)
    ensures Run(run, steps, [W1, W2], s)
    ensures s.pending == map[W1 := WITH_NEW, W2 := P.Pending(Some(NEW), Some(NEW), true)]
    ensures Sees(s, [Approval(2, NEW, true, 1)], [], true, [W1], Busy(W2, Asking(1)), [], 2)
  {
    run, steps, s := SecondIsAnswered();
    run, steps, s := Go(run, steps, [W1, W2], s, Deliver(ISSUER, SECOND, NOTHING_OPEN, false));
    assert Sees(s, [Request(1, NEW), Approval(2, NEW, true, 1)], [], true, [], Busy(W2, Asking(1)), [], 2);
    run, steps, s := Go(run, steps, [W1, W2], s, Deliver(ISSUER, SECOND, NOTHING_OPEN, false));
  }

  lemma SecondIsAnswered() returns (run: seq<System>, steps: seq<Step>, s: System)
    ensures Run(run, steps, [W1, W2], s) && IsNew(s, W1)
    ensures s.pending == map[W1 := WITH_NEW, W2 := P.Pending(Some(NEW), Some(NEW), true)]
    ensures Sees(s, [Approval(1, NEW, true, 0), Request(1, NEW), Approval(2, NEW, true, 1)], [], true, [],
                 Busy(W2, Asking(1)), [], 2)
  {
    run, steps, s := FirstIsSentAgain();
    run, steps, s := Go(run, steps, [W1, W2], s, Deliver(SECOND, ISSUER, ONLY_NEW, false));
  }

  lemma SecondIsDoneFirst() returns (run: seq<System>, steps: seq<Step>, s: System)
    ensures Run(run, steps, [W1, W2], s) && W1 in s.pending && s.pending[W1] == WITH_NEW
    ensures Sees(s, [], [], true, [W1], Idle, [Begun(W2, NEW)], 2)
  {
    run, steps, s := FirstWaitsBehindSecond();
    run, steps, s := IsLetBegin(run, steps, [W1, W2], s, W2, [W1], [], 2);
    assert [] + [Begun(W2, NEW)] == [Begun(W2, NEW)];
    run, steps, s := IsDone(run, steps, [W1, W2], s, W2, [W1], [Begun(W2, NEW)], 2);
  }

  lemma FirstIsAskedAgain() returns (run: seq<System>, steps: seq<Step>, s: System)
    ensures Run(run, steps, [W1, W2], s) && W1 in s.pending && s.pending[W1] == WITH_NEW
    ensures Sees(s, [], [Ready(1, NEW, 2)], true, [], Busy(W1, Asking(2)), [Begun(W2, NEW)], 3)
  {
    run, steps, s := SecondIsDoneFirst();
    run, steps, s := Go(run, steps, [W1, W2], s, StartJob(NEW));
    assert Sees(s, [], [], true, [], Busy(W1, Next), [Begun(W2, NEW)], 2);
    run, steps, s := Go(run, steps, [W1, W2], s, Ask(NEW));
  }

  /** One term, nothing lost, and the write handed back is begun after the one it was issued before. */
  lemma HandedBackIsBegunLast() returns (run: seq<System>, steps: seq<Step>, s: System)
    ensures Run(run, steps, [W1, W2], s) && s.log == [Begun(W2, NEW), Begun(W1, NEW)]
    ensures !InOrder(s.log, [W1, W2])
  {
    run, steps, s := FirstIsAskedAgain();
    run, steps, s := IsBegun(run, steps, [W1, W2], s, W1, [Begun(W2, NEW)], 3);
    ReversedIsNotInOrder(s.log);
  }

  // --- A request is lost ------------------------------------------------------------------------

  /** Where the first request is lost and sent again, the second write is begun first. */
  lemma LostIsBegunLast() returns (run: seq<System>, steps: seq<Step>, s: System)
    ensures Run(run, steps, [W1, W2], s) && s.log == [Begun(W2, NEW), Begun(W1, NEW)]
    ensures !InOrder(s.log, [W1, W2])
  {
    run, steps, s := BothAreIssued();
    run, steps, s := Go(run, steps, [W1, W2], s, Lose(ISSUER, SECOND, 0));
    run, steps, s := SecondIsWritten(run, steps, s);
    run, steps, s := Go(run, steps, [W1, W2], s, Resend(W1, ONLY_NEW));
    run, steps, s := FirstFollows(run, steps, s);
  }
}
