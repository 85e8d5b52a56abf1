/**
 * Why the safety of the delivery protocol needs its hypothesis: a run of the same steps in which a yes
 * outlives the question it answers, and a write is begun twice.
 *
 * A tab hands a write over twice, as it does when the port's `open` is restated. The first question
 * about it goes unanswered until the port has closed, so it ends as `NOT_CONNECTED` and is forgotten;
 * the second copy is admitted and asked about again, and the late yes to the first question begins it.
 * The issuer then hears `NOT_CONNECTED`, and the crash of that tab hands the write to the next one.
 */
module DeliveryCounterexample {
  import opened Basics
  import opened Delivery
  import P = PendingWrites
  import A = AcceptedWrites
  import DeliverySafety

  const ISSUER: ClientId := 1
  const FIRST: ClientId := 2
  const SECOND: ClientId := 3
  const OLD: TermId := 10
  const NEW: TermId := 20
  const REQUEST: RequestId := 7
  const W := Write(ISSUER, REQUEST)

  const OLD_IS_OPEN := P.Host(true, Some(OLD), {})
  const NOTHING_OPEN := P.Host(false, None, {})
  const NEW_IS_OPEN := P.Host(true, Some(NEW), {OLD})

  /** A path from `start`, and the state it ends in. */
  ghost predicate Leads(start: System, run: seq<System>, steps: seq<Step>, s: System) {
    DeliverySafety.IsPath(run, steps) && run[0] == start && run[|steps|] == s
  }

  ghost predicate EndsIn(run: seq<System>, steps: seq<Step>, s: System) { Leads(Start, run, steps, s) }

  lemma Extend(run: seq<System>, steps: seq<Step>, s: System, step: Step)
    returns (run': seq<System>, steps': seq<Step>, s': System)
    requires run != [] && Leads(run[0], run, steps, s) && Enabled(s, step)
    ensures Leads(run[0], run', steps', s') && run' != [] && run'[0] == run[0] && s' == After(s, step)
  {
    s' := After(s, step);
    run', steps' := run + [s'], steps + [step];
  }

  /** What a state of the run looks like to the tabs involved, through a term `t` held by `holder`. */
  ghost predicate Looks(s: System, t: TermId, up: seq<Message>, down: seq<Message>, p: P.Pending, term: Term,
                        log: seq<Begun>, asked: int) {
    && s.issued == {W} && s.pending == map[W := p] && s.settled == map[]
    && t in s.terms && s.terms[t] == term
    && Channel(s, ISSUER, term.tab) == up && Channel(s, term.tab, ISSUER) == down
    && s.log == log && s.asked == asked
    && ISSUER !in s.gone && term.tab !in s.gone
  }

  function Holding(tab: ClientId, isOpen: bool, inProgress: set<Write>, waiting: seq<Write>, running: Running): Term {
    Term(tab, true, isOpen, A.Record(inProgress, map[], []), waiting, running)
  }

  const STARTED_OLD := P.Pending(Some(OLD), Some(OLD), true)
  const UNSTARTED_OLD := P.Pending(None, Some(OLD), true)
  const HANDED_BACK := P.Pending(None, Some(OLD), false)
  const UNSTARTED_NEW := P.Pending(None, Some(NEW), true)

  /** The second tab plays no part yet. */
  ghost predicate Apart(s: System) {
    && NEW !in s.terms && s.gone == {}
    && Channel(s, ISSUER, SECOND) == [] && Channel(s, SECOND, ISSUER) == []
  }

  lemma Issued() returns (run: seq<System>, steps: seq<Step>, s: System)
    ensures EndsIn(run, steps, s) && Apart(s)
    ensures Looks(s, OLD, [Request(REQUEST, OLD)], [], UNSTARTED_OLD, Holding(FIRST, true, {}, [], Idle), [], 0)
  {
    run, steps, s := [Start], [], Start;
    run, steps, s := Extend(run, steps, s, StartTerm(OLD, FIRST));
    run, steps, s := Extend(run, steps, s, Connection(OLD, true));
    run, steps, s := Extend(run, steps, s, Issue(W, OLD_IS_OPEN));
  }

  lemma HandedOverTwice() returns (run: seq<System>, steps: seq<Step>, s: System)
    ensures EndsIn(run, steps, s) && Apart(s)
    ensures Looks(s, OLD, [Request(REQUEST, OLD)], [], UNSTARTED_OLD, Holding(FIRST, true, {W}, [W], Idle), [], 0)
  {
    run, steps, s := Issued();
    run, steps, s := Extend(run, steps, s, Resend(W, OLD_IS_OPEN));
    assert Looks(s, OLD, [Request(REQUEST, OLD), Request(REQUEST, OLD)], [], UNSTARTED_OLD,
                 Holding(FIRST, true, {}, [], Idle), [], 0);
    run, steps, s := Extend(run, steps, s, Deliver(ISSUER, FIRST, NOTHING_OPEN, false));
  }

  lemma AskedOnce() returns (run: seq<System>, steps: seq<Step>, s: System)
    ensures EndsIn(run, steps, s) && Apart(s)
    ensures Looks(s, OLD, [Request(REQUEST, OLD)], [Ready(REQUEST, OLD, 0)], UNSTARTED_OLD,
                  Holding(FIRST, true, {W}, [], Busy(W, Asking(0))), [], 1)
  {
    run, steps, s := HandedOverTwice();
    run, steps, s := Extend(run, steps, s, StartJob(OLD));
    run, steps, s := Extend(run, steps, s, Ask(OLD));
  }

  /** The port closes, and the question ends unanswered as `NOT_CONNECTED`. */
  lemma EndedUnanswered() returns (run: seq<System>, steps: seq<Step>, s: System)
    ensures EndsIn(run, steps, s) && Apart(s)
    ensures Looks(s, OLD, [Request(REQUEST, OLD)], [Ready(REQUEST, OLD, 0), Result(REQUEST, OLD, NotConnected)],
                  UNSTARTED_OLD, Holding(FIRST, false, {}, [], Idle), [], 1)
  {
    run, steps, s := AskedOnce();
    run, steps, s := Extend(run, steps, s, Connection(OLD, false));
    run, steps, s := Extend(run, steps, s, StopWaiting(OLD));
    assert Looks(s, OLD, [Request(REQUEST, OLD)], [Ready(REQUEST, OLD, 0)], UNSTARTED_OLD,
                 Holding(FIRST, false, {W}, [], Busy(W, Answered(false, 0))), [], 1);
    run, steps, s := Extend(run, steps, s, Conclude(OLD));
    assert {W} - {W} == {};
  }

  /** Only then is it answered. */
  lemma AnsweredTooLate() returns (run: seq<System>, steps: seq<Step>, s: System)
    ensures EndsIn(run, steps, s) && Apart(s)
    ensures Looks(s, OLD, [Request(REQUEST, OLD), Approval(REQUEST, OLD, true, 0)],
                  [Result(REQUEST, OLD, NotConnected)], STARTED_OLD, Holding(FIRST, true, {}, [], Idle), [], 1)
  {
    run, steps, s := EndedUnanswered();
    run, steps, s := Extend(run, steps, s, Deliver(FIRST, ISSUER, NOTHING_OPEN, false));
    assert Looks(s, OLD, [Request(REQUEST, OLD), Approval(REQUEST, OLD, true, 0)], [Result(REQUEST, OLD, NotConnected)],
                 STARTED_OLD, Holding(FIRST, false, {}, [], Idle), [], 1);
    run, steps, s := Extend(run, steps, s, Connection(OLD, true));
  }

  lemma AskedTwice() returns (run: seq<System>, steps: seq<Step>, s: System)
    ensures EndsIn(run, steps, s) && Apart(s)
    ensures Looks(s, OLD, [Approval(REQUEST, OLD, true, 0)],
                  [Result(REQUEST, OLD, NotConnected), Ready(REQUEST, OLD, 1)], STARTED_OLD, Holding(FIRST, true, {W},
                                                                                         [], Busy(W, Asking(1))), [], 2)
  {
    run, steps, s := AnsweredTooLate();
    run, steps, s := Extend(run, steps, s, Deliver(ISSUER, FIRST, NOTHING_OPEN, false));
    assert Looks(s, OLD, [Approval(REQUEST, OLD, true, 0)], [Result(REQUEST, OLD, NotConnected)],
                 STARTED_OLD, Holding(FIRST, true, {W}, [W], Idle), [], 1);
    run, steps, s := Extend(run, steps, s, StartJob(OLD));
    run, steps, s := Extend(run, steps, s, Ask(OLD));
  }

  /** The second copy is admitted, and the late yes begins it. */
  lemma BegunByTheLateYes() returns (run: seq<System>, steps: seq<Step>, s: System)
    ensures EndsIn(run, steps, s) && Apart(s)
    ensures Looks(s, OLD, [], [Result(REQUEST, OLD, NotConnected), Ready(REQUEST, OLD, 1)],
                  STARTED_OLD, Holding(FIRST, true, {W}, [], Busy(W, Writing)), [Begun(W, OLD)], 2)
  {
    run, steps, s := AskedTwice();
    run, steps, s := Extend(run, steps, s, Deliver(ISSUER, FIRST, NOTHING_OPEN, false));
    assert Looks(s, OLD, [], [Result(REQUEST, OLD, NotConnected), Ready(REQUEST, OLD, 1)],
                 STARTED_OLD, Holding(FIRST, true, {W}, [], Busy(W, Answered(true, 0))), [], 2);
    run, steps, s := Extend(run, steps, s, Conclude(OLD));
  }

  /** The issuer hears `NOT_CONNECTED` and counts the write as not begun, although it was. */
  lemma CountedAsNotBegun() returns (run: seq<System>, steps: seq<Step>, s: System)
    ensures EndsIn(run, steps, s) && Apart(s)
    ensures Looks(s, OLD, [], [Ready(REQUEST, OLD, 1)],
                  HANDED_BACK, Holding(FIRST, true, {W}, [], Busy(W, Writing)), [Begun(W, OLD)], 2)
  {
    run, steps, s := BegunByTheLateYes();
    run, steps, s := Extend(run, steps, s, Deliver(FIRST, ISSUER, NOTHING_OPEN, false));
  }

  /** A write rejected with `started: false` can have been begun. */
  lemma RejectedAlthoughBegun() returns (run: seq<System>, steps: seq<Step>, s: System)
    ensures EndsIn(run, steps, s)
    ensures W in s.settled && s.settled[W] == Timeout(false) && Begun(W, OLD) in s.log
  {
    run, steps, s := CountedAsNotBegun();
    run, steps, s := Extend(run, steps, s, Expire(W));
  }

  /** The tab crashes, and the write goes to the next term. */
  lemma HandedToTheNextTerm() returns (run: seq<System>, steps: seq<Step>, s: System)
    ensures EndsIn(run, steps, s)
    ensures Looks(s, NEW, [Request(REQUEST, NEW)], [], UNSTARTED_NEW, Holding(SECOND, true, {}, [], Idle),
                  [Begun(W, OLD)], 2)
  {
    run, steps, s := CountedAsNotBegun();
    run, steps, s := Extend(run, steps, s, Crash(FIRST));
    run, steps, s := Extend(run, steps, s, StartTerm(NEW, SECOND));
    run, steps, s := Extend(run, steps, s, Connection(NEW, true));
    assert Looks(s, NEW, [], [], HANDED_BACK, Holding(SECOND, true, {}, [], Idle), [Begun(W, OLD)], 2);
    run, steps, s := Extend(run, steps, s, HandOn(W, NEW_IS_OPEN));
  }

  lemma AskedByTheNextTerm() returns (run: seq<System>, steps: seq<Step>, s: System)
    ensures EndsIn(run, steps, s)
    ensures Looks(s, NEW, [], [Ready(REQUEST, NEW, 2)], UNSTARTED_NEW,
                  Holding(SECOND, true, {W}, [], Busy(W, Asking(2))), [Begun(W, OLD)], 3)
  {
    run, steps, s := HandedToTheNextTerm();
    run, steps, s := Extend(run, steps, s, Deliver(ISSUER, SECOND, NOTHING_OPEN, false));
    assert Looks(s, NEW, [], [], UNSTARTED_NEW, Holding(SECOND, true, {W}, [W], Idle), [Begun(W, OLD)], 2);
    run, steps, s := Extend(run, steps, s, StartJob(NEW));
    run, steps, s := Extend(run, steps, s, Ask(NEW));
  }

  /** That term asks, is let begin, and begins the write again. */
  lemma BegunTwice() returns (run: seq<System>, steps: seq<Step>, s: System)
    ensures EndsIn(run, steps, s)
    ensures s.log == [Begun(W, OLD), Begun(W, NEW)]
  {
    run, steps, s := AskedByTheNextTerm();
    run, steps, s := Extend(run, steps, s, Deliver(SECOND, ISSUER, NOTHING_OPEN, false));
    assert Looks(s, NEW, [Approval(REQUEST, NEW, true, 2)], [], P.Pending(Some(NEW), Some(NEW), true),
                 Holding(SECOND, true, {W}, [], Busy(W, Asking(2))), [Begun(W, OLD)], 3);
    run, steps, s := Extend(run, steps, s, Deliver(ISSUER, SECOND, NOTHING_OPEN, false));
    run, steps, s := Extend(run, steps, s, Conclude(NEW));
  }
}
