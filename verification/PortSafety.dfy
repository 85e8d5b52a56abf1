/**
 * What the connection automaton keeps over whole runs.
 *
 * A run may take its steps in any order: calls, device events, timers, answers of the browser and the
 * turns of every attempt still waiting. The hypothesis `NoneOvertaken` concerns the two turns of an
 * attempt in which it names a port the connection's own without a look at the generation, and nothing else.
 * Module PortOvertaken says what becomes of the promises without it.
 */
module PortSafety {
  import opened ConnectionAutomaton

  ghost predicate IsPath(run: seq<State>, steps: seq<Step>, c: Config) {
    && |run| == |steps| + 1
    && forall i :: 0 <= i < |steps| ==> Enabled(run[i], steps[i]) && run[i + 1] == After(run[i], c, steps[i])
  }

  ghost predicate IsRun(run: seq<State>, steps: seq<Step>, c: Config) {
    IsPath(run, steps, c) && run[0] == New && c.backoff.Valid()
  }

  /** Nothing moved on between finding a port and opening it, nor between opening it and taking its streams. */
  ghost predicate NoneOvertaken(run: seq<State>, steps: seq<Step>)
    requires |run| == |steps| + 1
  {
    forall i :: 0 <= i < |steps| ==> ResumesCurrent(run[i], steps[i])
  }

  lemma {:induction false} RunKeepsInv(run: seq<State>, steps: seq<Step>, c: Config, n: nat)
    requires IsRun(run, steps, c) && NoneOvertaken(run, steps) && n <= |steps|
    ensures Inv(run[n], c)
    decreases n
  {
    if n > 0 {
      RunKeepsInv(run, steps, c, n - 1);
      StepKeepsInv(run[n - 1], c, steps[n - 1]);
    }
  }

  /**
   * One port at a time: never are two devices open or being opened, and a port is opened only when the
   * one before it has finished closing, or has outlived the deadline of a step of its closing.
   */
  lemma OnePortAtATime(run: seq<State>, steps: seq<Step>, c: Config, n: nat)
    requires IsRun(run, steps, c) && NoneOvertaken(run, steps) && n <= |steps|
    ensures forall h, h' :: IsLive(run[n], h) && IsLive(run[n], h') ==> h == h'
    ensures forall h :: IsLive(run[n], h) ==>
              run[n].kind == Opening(h) || run[n].kind == Open(h) || h in run[n].teardown || h in run[n].draining
    ensures n < |steps| && steps[n].OpenPort? ==> forall h :: !IsLive(run[n], h)
  {
    RunKeepsInv(run, steps, c, n);
    if n < |steps| && steps[n].OpenPort? {
      assert Enabled(run[n], steps[n]) && ResumesCurrent(run[n], steps[n]);
      assert Closing(run[n]) == {};
    }
  }

  /** Retries are bounded: attempts never exceed the limit, and one timer is armed exactly while another is due. */
  lemma ReconnectionIsBounded(run: seq<State>, steps: seq<Step>, c: Config, n: nat)
    requires IsRun(run, steps, c) && NoneOvertaken(run, steps) && n <= |steps|
    ensures run[n].kind.Reconnecting? <==> run[n].timers != {}
    ensures run[n].kind.Reconnecting? ==> run[n].timers == {run[n].kind.timer}
    ensures c.backoff.maxAttempts.Some? ==>
              run[n].counters.attempt <= c.backoff.maxAttempts.value
              && (run[n].kind.Reconnecting? ==> run[n].counters.attempt < c.backoff.maxAttempts.value)
  {
    RunKeepsInv(run, steps, c, n);
    if run[n].kind.Reconnecting? { assert run[n].kind.timer in run[n].timers; }
  }

  lemma StoppedStays(s: State, c: Config, step: Step)
    requires s.kind.Stopped? && Enabled(s, step) && ResumesCurrent(s, step)
    ensures After(s, c, step).kind.Stopped? && Closing(After(s, c, step)) <= Closing(s)
  {
  }

  lemma StoppedOpensNothing(s: State, step: Step)
    requires s.kind.Stopped? && Enabled(s, step) && ResumesCurrent(s, step)
    ensures !step.OpenPort?
  {
  }

  lemma {:induction false} StaysStopped(run: seq<State>, steps: seq<Step>, c: Config, m: nat, n: nat)
    requires IsPath(run, steps, c) && NoneOvertaken(run, steps) && m <= n <= |steps|
    requires run[m].kind.Stopped? && Closing(run[m]) == {}
    ensures run[n].kind.Stopped? && Closing(run[n]) == {}
    decreases n
  {
    if m < n {
      StaysStopped(run, steps, c, m, n - 1);
      StoppedStays(run[n - 1], c, steps[n - 1]);
    }
  }

  /**
   * What `stop()` promises when it resolves - its writes drained, every close finished or given up on -
   * holds from then on: no device is open, and none is ever opened again.
   */
  lemma NothingIsOpenAfterStop(run: seq<State>, steps: seq<Step>, c: Config, m: nat, n: nat)
    requires IsRun(run, steps, c) && NoneOvertaken(run, steps) && m <= n <= |steps|
    requires run[m].kind.Stopped? && Closing(run[m]) == {}
    ensures run[n].kind.Stopped? && Closing(run[n]) == {} && (forall h :: !IsLive(run[n], h))
    ensures n < |steps| ==> !steps[n].OpenPort?
  {
    RunKeepsInv(run, steps, c, n);
    StaysStopped(run, steps, c, m, n);
    if n < |steps| {
      StoppedOpensNothing(run[n], steps[n]);
    }
  }
}
