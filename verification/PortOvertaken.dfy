/**
 * What an overtaken attempt does to the promises of module PortSafety: wherever an attempt stands in one of the
 * two turns that are not followed by a look at the generation, the run can go on to a state in which two ports
 * are open at once, a port is open that nobody will close, or a connection is open after `stop()` - and only one
 * step of the way is one that an overtaken attempt takes unawares.
 */
module PortOvertaken {
  import opened Backoff
  import opened ConnectionAutomaton
  import opened PortSafety

  const AT_ONCE := Moment(0, 0.0)

  // --- Paths ------------------------------------------------------------------------------------

  ghost predicate IsWay(s: State, run: seq<State>, steps: seq<Step>, c: Config, s': State) {
    IsPath(run, steps, c) && NoneOvertaken(run, steps) && run[0] == s && run[|steps|] == s'
  }

  /** `s'` is reached from `s` by steps none of which an overtaken attempt takes unawares. */
  ghost predicate Reaches(s: State, c: Config, s': State) {
    exists run, steps :: IsWay(s, run, steps, c, s')
  }

  lemma Here(s: State, c: Config)
    ensures Reaches(s, c, s)
  {
    assert IsWay(s, [s], [], c, s);
  }

  lemma Then(s: State, c: Config, s1: State, step: Step, s2: State)
    requires Reaches(s, c, s1) && Enabled(s1, step) && ResumesCurrent(s1, step) && s2 == After(s1, c, step)
    ensures Reaches(s, c, s2)
  {
    var run, steps :| IsWay(s, run, steps, c, s1);
    WayGrows(s, run, steps, c, s1, step, s2);
  }

  lemma WayGrows(s: State, run: seq<State>, steps: seq<Step>, c: Config, s1: State, step: Step, s2: State)
    requires IsWay(s, run, steps, c, s1) && Enabled(s1, step) && ResumesCurrent(s1, step) && s2 == After(s1, c, step)
    ensures IsWay(s, run + [s2], steps + [step], c, s2)
  {
    var run', steps' := run + [s2], steps + [step];
    forall i | 0 <= i < |steps'|
      ensures Enabled(run'[i], steps'[i]) && run'[i + 1] == After(run'[i], c, steps'[i])
      ensures ResumesCurrent(run'[i], steps'[i])
    {
      assert run'[i] == run[i];
      if i < |steps| {
        assert run'[i + 1] == run[i + 1] && steps'[i] == steps[i];
      }
    }
  }

  // --- Closing settles --------------------------------------------------------------------------

  /** What `stop()` drained is being closed like the rest. */
  lemma DrainingSettles(s: State, c: Config, s1: State) returns (s2: State)
    requires Reaches(s, c, s1) && Inv(s1, c)
    ensures Reaches(s, c, s2) && Inv(s2, c) && s2.draining == {}
    ensures s2 == s1.(teardown := s2.teardown, draining := {})
  {
    s2 := s1;
    if h :| h in s1.draining {
      s2 := s1.(draining := s1.draining - {h}, teardown := s1.teardown + {h});
      Then(s, c, s1, DrainDone(h), s2);
      DrainingKeepsInv(s1, c, h);
      assert forall x :: x in s2.draining ==> x in Closing(s1);
      assert s2.draining == {};
    }
  }

  /** What is being closed settles, and nothing else happens. */
  lemma ClosingSettles(s: State, c: Config, s1: State) returns (s2: State)
    requires Reaches(s, c, s1) && Inv(s1, c)
    ensures Reaches(s, c, s2) && Inv(s2, c) && Closing(s2) == {}
    ensures s2 == s1.(teardown := {}, draining := {}, devices := s2.devices)
  {
    s2 := DrainingSettles(s, c, s1);
    if h :| h in s2.teardown {
      var s3 := OnTeardownDone(s2, h, false);
      Then(s, c, s2, TeardownDone(h, false), s3);
      ClosingKeepsInv(s2, c, h, false);
      assert forall x :: x in s2.teardown ==> x in Closing(s2) && x == h;
      assert s3.teardown == {};
      s2 := s3;
    }
  }

  // --- A new attempt goes as far as opening -----------------------------------------------------

  /** Whatever is under way, the user can choose another device, and the attempt that follows can open its port. */
  lemma NewAttemptOpens(s: State, c: Config, g: nat) returns (s': State)
    requires Inv(s, c) && c.backoff.Valid() && !s.kind.Stopped? && g in s.attempts
    ensures Reaches(s, c, s') && Inv(s', c)
    ensures s'.kind.Opening? && IsLive(s', s'.kind.port) && Closing(s') == {}
    ensures g in s'.attempts && s'.attempts[g] == s.attempts[g] && IsStale(s', g)
    ensures s.nextPort == s'.kind.port && s'.nextPort == s.nextPort + 1
  {
    var s1 := NewAttemptLists(s, c, g);
    var n := s1.generation;
    var s2 := s1.(attempts := s1.attempts[n := Found]);
    Then(s, c, s1, ListingEnds(n, PortFound, AT_ONCE), s2);
    ListingKeepsInv(s1, c, n, PortFound, AT_ONCE);
    s' := OnOpenPort(s2, n);
    Then(s, c, s2, OpenPort(n), s');
    OpeningKeepsInv(s2, c, n);
  }

  /** A new attempt is under way, and `g` waits where it did. */
  ghost predicate IsOvertakenBy(s: State, g: nat, s': State, c: Config) {
    && Inv(s', c) && s'.kind.Listing? && s'.nextPort == s.nextPort
    && s'.generation in s'.attempts && g in s'.attempts && g < s'.generation && g in s.attempts
    && s'.attempts[g] == s.attempts[g]
  }

  lemma FollowingOvertakes(s: State, c: Config, g: nat)
    requires Inv(s, c) && c.backoff.Valid() && !s.kind.Stopped? && g in s.attempts
    ensures var s' := OnFollowDevice(s, false);
            && IsOvertakenBy(s, g, s', c)
            && (s'.attempts[s'.generation].ListingPorts? || s'.attempts[s'.generation].AwaitingTeardown?)
  {
    FollowKeepsInv(s, c, false);
  }

  lemma NewAttemptLists(s: State, c: Config, g: nat) returns (s': State)
    requires Inv(s, c) && c.backoff.Valid() && !s.kind.Stopped? && g in s.attempts
    ensures Reaches(s, c, s') && IsOvertakenBy(s, g, s', c) && Closing(s') == {}
    ensures s'.attempts[s'.generation].ListingPorts?
  {
    Here(s, c);
    var s1 := OnFollowDevice(s, false);
    Then(s, c, s, FollowDevice(false), s1);
    FollowingOvertakes(s, c, g);
    s' := ClosingSettles(s, c, s1);
    if s'.attempts[s'.generation].AwaitingTeardown? {
      s' := NewAttemptGoesOn(s, c, s');
    }
  }

  lemma NewAttemptGoesOn(s: State, c: Config, s1: State) returns (s2: State)
    requires Reaches(s, c, s1) && Inv(s1, c) && Closing(s1) == {} && s1.kind.Listing?
    requires s1.generation in s1.attempts && s1.attempts[s1.generation].AwaitingTeardown?
    ensures Reaches(s, c, s2) && Inv(s2, c)
    ensures s2 == s1.(attempts := s1.attempts[s1.generation := ListingPorts], connectedWhileListing := false)
  {
    s2 := OnTeardownAwaited(s1, s1.generation);
    Then(s, c, s1, TeardownAwaited(s1.generation), s2);
    TeardownAwaitedKeepsInv(s1, c, s1.generation);
  }

  // --- Not stopped ------------------------------------------------------------------------------

  /** While an attempt stands before its open, two ports can come to be open at once. */
  lemma FoundMayOpenTwo(s: State, c: Config, g: nat) returns (s1: State, s2: State, h: Handle, h': Handle)
    requires Inv(s, c) && c.backoff.Valid() && !s.kind.Stopped? && g in s.attempts && s.attempts[g].Found?
    ensures Reaches(s, c, s1) && IsStale(s1, g) && Enabled(s1, OpenPort(g)) && s2 == After(s1, c, OpenPort(g))
    ensures h != h' && IsLive(s2, h) && IsLive(s2, h')
  {
    s1 := NewAttemptOpens(s, c, g);
    s2 := OnOpenPort(s1, g);
    h, h' := s1.kind.port, s1.nextPort;
  }

  /**
   * While an attempt stands before its streams, a port can come to be open that is no connection's nor being
   * closed.
   */
  lemma OpenedMayStrandAPort(s: State, c: Config, g: nat) returns (s1: State, s2: State, h: Handle)
    requires Inv(s, c) && c.backoff.Valid() && !s.kind.Stopped? && g in s.attempts && s.attempts[g].Opened?
    ensures Reaches(s, c, s1) && IsStale(s1, g) && Enabled(s1, TakeStreams(g, Taken, AT_ONCE))
    ensures s2 == After(s1, c, TakeStreams(g, Taken, AT_ONCE))
    ensures IsLive(s2, h) && s2.kind != Opening(h) && s2.kind != Open(h) && h !in Closing(s2)
  {
    s1 := NewAttemptOpens(s, c, g);
    s2 := OnTakeStreams(s1, c, g, Taken, AT_ONCE);
    h := s1.kind.port;
  }

  // --- Stopped ----------------------------------------------------------------------------------

  /** The open answers, and the attempt that made it ends. */
  lemma StrayOpenEnds(s: State, c: Config, g: nat) returns (s': State)
    requires s.kind.Opening? && g in s.attempts && s.attempts[g] == OpeningPort(s.kind.port) && g != s.generation
    requires s.kind.port in s.devices && s.devices[s.kind.port].Pending?
    ensures Reaches(s, c, s') && s'.devices == s.devices[s.kind.port := Held] && s'.kind == s.kind
    ensures s'.attempts == s.attempts - {g} && s'.teardown == s.teardown && s'.draining == s.draining
  {
    var h := s.kind.port;
    Here(s, c);
    var s1 := OnOpenSettles(s, h, true);
    Then(s, c, s, OpenSettles(h, true), s1);
    s' := EndAttempt(s1, g);
    Then(s, c, s1, OpenAnswered(g, true, AT_ONCE), s');
  }

  /**
   * When `stop()` has resolved and an attempt stands before its open, the port can be opened after it - and then
   * the attempt ends, so that it is open with nobody to close it.
   */
  lemma FoundMayOpenAfterStop(s: State, c: Config, g: nat) returns (s1: State, s2: State, s3: State, h: Handle)
    requires Inv(s, c) && s.kind.Stopped? && g in s.attempts && s.attempts[g].Found?
    ensures Reaches(s, c, s1) && s1.kind.Stopped? && Closing(s1) == {} && Enabled(s1, OpenPort(g))
    ensures s2 == After(s1, c, OpenPort(g)) && Reaches(s2, c, s3)
    ensures h in s3.devices && s3.devices[h].Held? && Closing(s3) == {} && g !in s3.attempts
    ensures forall x :: x in s3.attempts && HasPort(s3.attempts[x]) ==> s3.attempts[x].port != h
  {
    Here(s, c);
    s1 := ClosingSettles(s, c, s);
    h := s1.nextPort;
    s2 := OnOpenPort(s1, g);
    s3 := StrayOpenEnds(s2, c, g);
  }

  /** When `stop()` has resolved and an attempt stands before its streams, the connection can be open after it. */
  lemma OpenedMayComeAfterStop(s: State, c: Config, g: nat) returns (s1: State, s2: State)
    requires Inv(s, c) && s.kind.Stopped? && g in s.attempts && s.attempts[g].Opened?
    ensures Reaches(s, c, s1) && s1.kind.Stopped? && Closing(s1) == {} && Enabled(s1, TakeStreams(g, Taken, AT_ONCE))
    ensures s2 == After(s1, c, TakeStreams(g, Taken, AT_ONCE)) && s2.kind == Open(s.attempts[g].port)
  {
    Here(s, c);
    s1 := ClosingSettles(s, c, s);
    s2 := OnTakeStreams(s1, c, g, Taken, AT_ONCE);
  }

  // --- Runs from the start ----------------------------------------------------------------------

  lemma Extend(run: seq<State>, steps: seq<Step>, c: Config, step: Step) returns (run': seq<State>, steps': seq<Step>)
    requires IsRun(run, steps, c) && Enabled(run[|steps|], step)
    ensures IsRun(run', steps', c) && steps' == steps + [step] && run'[|steps'|] == After(run[|steps|], c, step)
    ensures run <= run'
  {
    run', steps' := run + [After(run[|steps|], c, step)], steps + [step];
    forall i | 0 <= i < |steps'|
      ensures Enabled(run'[i], steps'[i]) && run'[i + 1] == After(run'[i], c, steps'[i])
    {
      if i < |steps| { assert run'[i] == run[i] && run'[i + 1] == run[i + 1]; }
    }
  }

  /** An attempt that has just found its port. */
  lemma FindsItsPort(c: Config) returns (run: seq<State>, steps: seq<Step>, s: State)
    requires c.backoff.Valid()
    ensures IsRun(run, steps, c) && s == run[|steps|]
    ensures s == New.(kind := Listing, generation := 1, counters := NO_ATTEMPTS.AfterAttempt(),
                      attempts := map[1 := Found])
  {
    run, steps := [New], [];
    run, steps := Extend(run, steps, c, Start(false));
    run, steps := Extend(run, steps, c, ListingEnds(1, PortFound, AT_ONCE));
    s := run[|steps|];
    assert s.attempts == map[1 := Found];
  }

  /** `stop()` begins - nothing is open, so it has nothing to wait for - while the attempt has not gone on yet. */
  lemma StopsInBetween(c: Config) returns (run: seq<State>, steps: seq<Step>, s: State)
    requires c.backoff.Valid()
    ensures IsRun(run, steps, c) && s == run[|steps|]
    ensures s.kind.Stopped? && Closing(s) == {} && s.devices == map[] && s.nextPort == 0 && s.generation == 2
    ensures s.attempts == map[1 := Found]
  {
    run, steps, s := FindsItsPort(c);
    run, steps := Extend(run, steps, c, Stop);
    s := run[|steps|];
  }

  /** Between finding the port and opening it, `stop()` can begin: the port is opened after it, and nobody closes it. */
  lemma StopLeaksAFoundPort(c: Config) returns (run: seq<State>, steps: seq<Step>, m: nat)
    requires c.backoff.Valid()
    ensures IsRun(run, steps, c) && m < |steps|
    ensures run[m].kind.Stopped? && Closing(run[m]) == {}
    ensures run[|steps|].devices == map[0 := Held] && Closing(run[|steps|]) == {} && run[|steps|].attempts == map[]
  {
    var s;
    run, steps, s := StopsInBetween(c);
    m := |steps|;
    run, steps := Extend(run, steps, c, OpenPort(1));
    assert run[|steps|].devices == map[0 := Pending];
    run, steps := Extend(run, steps, c, OpenSettles(0, true));
    assert run[|steps|].devices == map[0 := Held];
    run, steps := Extend(run, steps, c, OpenAnswered(1, true, AT_ONCE));
    assert run[|steps|].attempts == map[];
  }

  /** Between opening the port and taking its streams, `stop()` can begin: the connection is `open` after it. */
  lemma StopIsOvertakenByItsStreams(c: Config) returns (run: seq<State>, steps: seq<Step>, m: nat)
    requires c.backoff.Valid()
    ensures IsRun(run, steps, c) && m < |steps|
    ensures run[m].kind.Stopped? && run[|steps|].kind == Open(0)
  {
    var s;
    run, steps, s := FindsItsPort(c);
    run, steps := Extend(run, steps, c, OpenPort(1));
    run, steps := Extend(run, steps, c, OpenSettles(0, true));
    run, steps := Extend(run, steps, c, OpenAnswered(1, true, AT_ONCE));
    run, steps := Extend(run, steps, c, Stop);
    m := |steps|;
    assert run[m].kind.Stopped?;
    run, steps := Extend(run, steps, c, TakeStreams(1, Taken, AT_ONCE));
  }

  /** Between finding the port and opening it, the user can choose another device: both are open at once. */
  lemma DeviceChangeOpensTwo(c: Config) returns (run: seq<State>, steps: seq<Step>)
    requires c.backoff.Valid()
    ensures IsRun(run, steps, c) && IsLive(run[|steps|], 0) && IsLive(run[|steps|], 1)
  {
    var s;
    run, steps, s := FindsItsPort(c);
    run, steps := Extend(run, steps, c, FollowDevice(false));
    assert run[|steps|].attempts == map[1 := Found, 3 := ListingPorts];
    run, steps := Extend(run, steps, c, ListingEnds(3, PortFound, AT_ONCE));
    assert run[|steps|].attempts == map[1 := Found, 3 := Found];
    run, steps := Extend(run, steps, c, OpenPort(3));
    run, steps := Extend(run, steps, c, OpenPort(1));
  }
}
