/**
 * `PortSupervisor` of `src/owner/port-supervisor.ts` as it keeps its connection: the fields it assigns and
 * the methods that assign them. Each method takes the step of `ConnectionAutomaton` it stands for, keeps the
 * invariant proved there, and says what a caller can rely on.
 */
module PortSupervisor {
  import opened Backoff
  import A = ConnectionAutomaton

  // --- What the contracts say -------------------------------------------------------------------

  ghost predicate AllStale(s: A.State) {
    forall g :: g in s.attempts ==> A.IsStale(s, g)
  }

  /** Nothing is open but what is being closed. */
  ghost predicate NothingOpen(s: A.State) {
    forall h :: A.IsLive(s, h) ==> h in A.Closing(s)
  }

  /** Between two connections; an attempt may still be waiting, but for nothing that is open. */
  ghost predicate MayConnect(s: A.State, c: A.Config) {
    && A.PortsOk(s) && A.AttemptsKnown(s)
    && !A.IsConnection(s.kind) && !s.kind.Stopped? && s.timers == {} && c.backoff.Valid()
  }

  /** A new attempt is under way and has overtaken every other; it lists the ports once everything is closed. */
  ghost predicate LooksAgain(s: A.State) {
    && s.kind.Listing? && s.timers == {} && NothingOpen(s)
    && s.generation in s.attempts
    && s.attempts[s.generation] == (if s.teardown == {} then A.ListingPorts else A.AwaitingTeardown(s.teardown))
    && forall g :: g in s.attempts && g != s.generation ==> A.IsStale(s, g)
  }

  /** A loss or a failed attempt is behind: one timer is armed within the cap, or no retry is due. */
  ghost predicate WaitsOrGaveUp(s: A.State, c: A.Config) {
    && NothingOpen(s) && AllStale(s)
    && (if s.kind.Reconnecting? then
          && c.autoReconnect && !s.counters.HasExhausted(c.backoff)
          && s.timers == {s.kind.timer} && 0 <= s.kind.delayMs <= c.backoff.maxDelayMs
        else s.kind.Failed? && s.timers == {})
  }

  lemma ConnectLooksAgain(s: A.State, c: A.Config)
    requires MayConnect(s, c)
    ensures LooksAgain(A.Connect(s)) && A.Connect(s).counters == s.counters.AfterAttempt()
  {
    var s' := A.Connect(s);
    assert forall h :: A.IsLive(s', h) <==> A.IsLive(s, h);
    assert A.Closing(s') == A.Closing(s);
    assert s.draining == {};
  }

  lemma AfreshLooksAgain(s: A.State, c: A.Config)
    requires MayConnect(s, c)
    ensures A.Inv(A.Afresh(s), c) && LooksAgain(A.Afresh(s)) && A.Afresh(s).counters == NO_ATTEMPTS.AfterAttempt()
  {
    A.AfreshKeepsInv(s, c);
    ConnectLooksAgain(s.(counters := NO_ATTEMPTS, kind := A.Idle), c);
  }

  lemma RecordingWaitsOrGivesUp(s: A.State, c: A.Config, at: A.Moment)
    requires A.Between(s) && c.backoff.Valid()
    ensures WaitsOrGaveUp(A.RecordFailedAttempt(s, c, at), c)
  {
    var s' := A.RecordFailedAttempt(s, c, at);
    A.RecordingOpensNothing(s, c, at);
    assert forall h :: A.IsLive(s', h) <==> A.IsLive(s, h);
    assert A.Closing(s') == A.Closing(s);
    DelayIsBounded(s.counters.AfterLoss(at.now, c.stableAfterMs).RetryIndex(), c.backoff, at.draw);
  }

  lemma LeavingIsBetween(s: A.State, c: A.Config)
    requires A.Inv(s, c) && !s.kind.Stopped? && !s.kind.Reconnecting?
    ensures A.Between(A.Left(s)) && A.Left(s).kind.Failed? && NothingOpen(A.Left(s)) && AllStale(A.Left(s))
  {
    A.LeavingTracks(s);
    A.LeavingEndsEverything(s);
  }

  lemma LossWaitsOrGivesUp(s: A.State, c: A.Config, at: A.Moment, retry: bool)
    requires A.Inv(s, c) && c.backoff.Valid() && !s.kind.Stopped? && !s.kind.Reconnecting?
    ensures WaitsOrGaveUp(A.HandleConnectionLoss(s, c, at, retry), c)
    ensures !retry ==> A.HandleConnectionLoss(s, c, at, retry).kind.Failed?
  {
    LeavingIsBetween(s, c);
    RecordingWaitsOrGivesUp(A.Left(s), c, at);
  }

  lemma EndingStillWaits(s: A.State, c: A.Config, g: nat)
    requires WaitsOrGaveUp(s, c)
    ensures WaitsOrGaveUp(A.EndAttempt(s, g), c)
  {
    assert forall h :: A.IsLive(A.EndAttempt(s, g), h) <==> A.IsLive(s, h);
    assert A.Closing(A.EndAttempt(s, g)) == A.Closing(s);
  }

  lemma ClearedMayConnect(s: A.State, c: A.Config)
    requires A.Inv(s, c) && c.backoff.Valid() && !A.IsConnection(s.kind) && !s.kind.Stopped?
    ensures MayConnect(A.ClearTimer(s), c)
  {
    A.ClearingKeeps(s, c);
  }

  /** What is left for another device is being closed, and a new attempt may begin. */
  lemma FollowingMayConnect(s: A.State, c: A.Config)
    requires A.Inv(s, c) && c.backoff.Valid() && !s.kind.Stopped?
    ensures var left := A.Left(A.ClearTimer(s)).(hasFoundPort := false, foundPortDetached := false);
            MayConnect(left, c) && (A.IsConnection(s.kind) ==> s.kind.port in left.teardown)
  {
    A.ClearingKeeps(s, c);
    A.LeavingTracks(A.ClearTimer(s));
    var left := A.Left(A.ClearTimer(s));
    A.BetweenIgnoresFlags(left, left.(hasFoundPort := false, foundPortDetached := false));
  }

  lemma FollowingLooksAgain(s: A.State, c: A.Config, isSame: bool)
    requires A.Inv(s, c) && c.backoff.Valid() && !s.kind.Stopped? && !(A.IsConnection(s.kind) && isSame)
    ensures var s' := A.OnFollowDevice(s, isSame);
            && A.Inv(s', c) && LooksAgain(s') && !s'.hasFoundPort && s'.counters == NO_ATTEMPTS.AfterAttempt()
            && (A.IsConnection(s.kind) ==> s.kind.port in s'.teardown)
  {
    FollowingMayConnect(s, c);
    AfreshLooksAgain(A.Left(A.ClearTimer(s)).(hasFoundPort := false, foundPortDetached := false), c);
  }

  /** `stop()` leaves no attempt current, no timer armed, and everything open being closed. */
  lemma StoppingClosesAll(s: A.State, c: A.Config)
    requires A.Inv(s, c) && !s.kind.Stopped?
    ensures var s' := A.OnStop(s);
            && s'.kind.Stopped? && s'.timers == {} && AllStale(s') && NothingOpen(s')
            && (s.kind.Open? ==> s'.draining == {s.kind.port})
            && (s.kind.Opening? ==> s'.teardown == {s.kind.port})
  {
    var s' := A.OnStop(s);
    assert forall h :: A.IsLive(s', h) <==> A.IsLive(s, h);
  }

  /** A port is opened only when no other is open, and is then the only one. */
  lemma OpeningIsAlone(s: A.State, c: A.Config, g: nat)
    requires A.Inv(s, c) && g in s.attempts && s.attempts[g].Found? && !A.IsStale(s, g)
    ensures forall h :: !A.IsLive(s, h)
    ensures forall h :: A.IsLive(A.OnOpenPort(s, g), h) <==> h == A.OnOpenPort(s, g).kind.port
  {
    assert A.Closing(s) == {};
    assert forall h :: h != s.nextPort && A.IsLive(A.OnOpenPort(s, g), h) ==> A.IsLive(s, h);
  }

  lemma OpeningMeans(s: A.State, c: A.Config, g: nat)
    requires A.Inv(s, c) && c.backoff.Valid() && A.Enabled(s, A.OpenPort(g))
    ensures var s' := A.OnOpenPort(s, g);
            && (A.Inv(s', c) <==> !A.IsStale(s, g)) && s'.kind.Opening?
            && (!A.IsStale(s, g) ==> forall h :: A.IsLive(s', h) <==> h == s'.kind.port)
  {
    A.OpeningNeedsTheCurrentAttempt(s, c, g);
    if !A.IsStale(s, g) {
      OpeningIsAlone(s, c, g);
    }
  }

  /** What the end of a listing leads to, for the current attempt. */
  ghost predicate LookedFor(s: A.State, c: A.Config, g: nat, result: A.Listed, s': A.State) {
    match result
    case PortFound => g in s'.attempts && s'.attempts[g] == A.Found && forall h :: !A.IsLive(s', h)
    case TimedOut => WaitsOrGaveUp(s', c)
    case Refused => s'.kind.Failed? && g !in s'.attempts
    case NoPort =>
      if s.connectedWhileListing then s'.kind.Listing? && g in s'.attempts && s'.attempts[g] == A.ListingPorts
      else if s.foundPortDetached then WaitsOrGaveUp(s', c)
      else s'.kind.AwaitingPermission? && g !in s'.attempts
  }

  lemma ListingMeans(s: A.State, c: A.Config, g: nat, result: A.Listed, at: A.Moment)
    requires A.Inv(s, c) && c.backoff.Valid() && g in s.attempts && s.attempts[g].ListingPorts? && !A.IsStale(s, g)
    ensures LookedFor(s, c, g, result, A.OnListingEnds(s, c, g, result, at))
  {
    assert A.Fits(s, s.attempts[g]);
    match result
    case PortFound =>
      var s' := A.OnListingEnds(s, c, g, result, at);
      assert forall h :: A.IsLive(s', h) <==> A.IsLive(s, h);
      assert A.Closing(s) == {};
    case TimedOut =>
      LossWaitsOrGivesUp(s, c, at, true);
      A.EndAndLossCommute(s, c, g, at, true);
      EndingStillWaits(A.HandleConnectionLoss(s, c, at, true), c, g);
    case Refused =>
    case NoPort =>
      A.EndingKeepsInv(s, c, g);
      RecordingWaitsOrGivesUp(A.EndAttempt(s, g), c, at);
  }

  lemma WithoutStreamsIsALoss(s: A.State, c: A.Config, g: nat, streams: A.Streams, at: A.Moment)
    requires A.Inv(s, c) && c.backoff.Valid() && g in s.attempts && s.attempts[g].Opened? && !A.IsStale(s, g)
    requires !streams.Taken?
    ensures WaitsOrGaveUp(A.OnTakeStreams(s, c, g, streams, at), c)
  {
    assert A.Fits(s, s.attempts[g]);
    var retry := streams.Missing? || streams.retryable;
    LossWaitsOrGivesUp(s, c, at, retry);
    A.EndAndLossCommute(s, c, g, at, retry);
    EndingStillWaits(A.HandleConnectionLoss(s, c, at, retry), c, g);
  }

  /** A device that reappears ends a wait, keeping its count, and revives a supervisor that gave up. */
  ghost predicate Revived(s: A.State, c: A.Config, s': A.State) {
    && !s'.foundPortDetached
    && (s.kind.Reconnecting? ==> LooksAgain(s') && s'.counters == s.counters.AfterAttempt())
    && (s.kind.AwaitingPermission? || (s.kind.Failed? && c.autoReconnect) ==>
          LooksAgain(s') && s'.counters == NO_ATTEMPTS.AfterAttempt())
    && ((s.kind.Failed? && !c.autoReconnect) || A.IsConnection(s.kind) || s.kind.Stopped? ==>
          s' == s.(foundPortDetached := false))
  }

  lemma ReappearanceLooksAgain(s: A.State, c: A.Config)
    requires A.Inv(s, c) && c.backoff.Valid()
    ensures Revived(s, c, A.OnDeviceConnected(s, c))
  {
    var s1 := s.(foundPortDetached := false);
    A.FlagsKeepInv(s, s1, c);
    if s.kind.Reconnecting? {
      ClearedMayConnect(s1, c);
      ConnectLooksAgain(A.ClearTimer(s1), c);
    } else if s.kind.Failed? || s.kind.AwaitingPermission? {
      AfreshLooksAgain(s1, c);
    }
  }

  lemma DisconnectionWaitsOrGivesUp(s: A.State, c: A.Config, at: A.Moment)
    requires A.Inv(s, c) && c.backoff.Valid() && (A.IsConnection(s.kind) || s.kind.AwaitingPermission?)
    ensures WaitsOrGaveUp(A.OnDeviceDisconnected(s, c, at), c)
  {
    var s1 := s.(foundPortDetached := true);
    A.FlagsKeepInv(s, s1, c);
    if A.IsConnection(s.kind) {
      LossWaitsOrGivesUp(s1, c, at, true);
    } else {
      RecordingWaitsOrGivesUp(s1, c, at);
    }
  }

  // --- The class --------------------------------------------------------------------------------

  class PortSupervisor {
    const config: A.Config
    const backoff: BackoffState
    var state: A.Kind
    var generation: nat
    var attempts: map<nat, A.Attempt>
    var devices: map<A.Handle, A.Device>
    var nextPort: A.Handle
    var succeeded: set<A.Handle>
    var teardown: set<A.Handle>
    var draining: set<A.Handle>
    var timers: set<nat>
    var nextTimer: nat
    var deviceConnectedWhileListing: bool
    var hasFoundPort: bool
    var foundPortDetached: bool

    function Value(): A.State
      reads this, backoff
    {
      A.State(state, generation, attempts, devices, nextPort, succeeded, teardown, draining, timers, nextTimer,
              backoff.Value(), deviceConnectedWhileListing, hasFoundPort, foundPortDetached)
    }

    ghost predicate Valid()
      reads this, backoff
    {
      A.Inv(Value(), config) && config.backoff.Valid()
    }

    predicate IsStale(g: nat)
      reads this
    {
      generation != g || state.Stopped?
    }

    constructor (config: A.Config)
      requires config.backoff.Valid()
      ensures Valid() && Value() == A.New && fresh(backoff) && this.config == config
    {
      this.config := config;
      backoff := new BackoffState();
      state, generation, attempts, devices, nextPort := A.Idle, 0, map[], map[], 0;
      succeeded, teardown, draining, timers, nextTimer := {}, {}, {}, {}, 0;
      deviceConnectedWhileListing, hasFoundPort, foundPortDetached := false, false, false;
    }

    method ClearTimer()
      modifies `timers
      ensures Value() == A.ClearTimer(old(Value()))
    {
      if state.Reconnecting? { timers := timers - {state.timer}; }
    }

    method EndAttempt(g: nat)
      modifies `attempts
      ensures Value() == A.EndAttempt(old(Value()), g)
    {
      attempts := attempts - {g};
    }

    method TrackTeardown()
      modifies `teardown
      ensures Value() == A.TrackTeardown(old(Value()))
    {
      if state.Opening? || state.Open? { teardown := teardown + {state.port}; }
    }

    // --- What the methods below are made of -----------------------------------------------------

    method Connect()
      modifies this, backoff
      ensures Value() == A.Connect(old(Value()))
    {
      if state.Stopped? { return; }
      generation := generation + 1;
      backoff.RecordAttempt();
      state := A.Listing;
      // `#findPort` waits for the teardown it finds, or starts to list at once.
      if teardown != {} {
        attempts := attempts[generation := A.AwaitingTeardown(teardown)];
      } else {
        deviceConnectedWhileListing := false;
        attempts := attempts[generation := A.ListingPorts];
      }
    }

    method ConnectAfresh()
      modifies this, backoff
      ensures Value() == A.Afresh(old(Value()))
    {
      backoff.Reset();
      state := A.Idle;
      Connect();
    }

    method RecordFailedAttempt(at: A.Moment)
      modifies this, backoff
      ensures Value() == A.RecordFailedAttempt(old(Value()), config, at)
    {
      if !config.autoReconnect {
        state := A.Failed;
        return;
      }
      backoff.RecordDisconnected(at.now, config.stableAfterMs);
      if backoff.Value().HasExhausted(config.backoff) {
        state := A.Failed;
        return;
      }
      var delayMs := DelayMs(backoff.Value().RetryIndex(), config.backoff, at.draw);
      timers := timers + {nextTimer};
      state := A.Reconnecting(nextTimer, delayMs, at.draw);
      nextTimer := nextTimer + 1;
    }

    /** What a lost connection and a change of the device have in common. */
    method Leave()
      modifies `generation, `teardown, `state
      ensures Value() == A.Left(old(Value()))
    {
      generation := generation + 1;
      TrackTeardown();
      state := A.Failed;
    }

    method HandleConnectionLoss(at: A.Moment, retry: bool)
      modifies this, backoff
      ensures Value() == A.HandleConnectionLoss(old(Value()), config, at, retry)
    {
      if state.Stopped? || state.Reconnecting? { return; }
      Leave();
      if retry { RecordFailedAttempt(at); }
    }

    // --- Calls and events -----------------------------------------------------------------------

    method Start(fromFailed: bool)
      requires Valid()
      modifies this, backoff
      ensures Valid() && Value() == A.OnStart(old(Value()), fromFailed)
      ensures old(state).Idle? ==> if fromFailed then state.Failed? else LooksAgain(Value())
    {
      ghost var s := Value();
      if state.Idle? {
        if fromFailed { state := A.Failed; } else { Connect(); }
      }
      assert Value() == A.OnStart(s, fromFailed);
      A.StartKeepsInv(s, config, fromFailed);
      if s.kind.Idle? {
        ConnectLooksAgain(s, config);
      }
    }

    /** Tries again with all attempts left, and only where none is being made. */
    method Retry()
      requires Valid()
      modifies this, backoff
      ensures Valid() && Value() == A.OnRetry(old(Value()))
      ensures if old(state.Failed? || state.AwaitingPermission?)
              then LooksAgain(Value()) && backoff.attempt == 1 && backoff.losses == 0
              else Value() == old(Value())
    {
      if !state.Failed? && !state.AwaitingPermission? { return; }
      AfreshLooksAgain(Value(), config);
      ConnectAfresh();
    }

    /** A connection that works, or is being made, is left alone. */
    method UseGrantedPort()
      requires Valid()
      modifies this, backoff
      ensures Valid() && Value() == A.OnUseGrantedPort(old(Value()))
      ensures if old(state.Stopped? || state.Open? || state.Opening?) then Value() == old(Value())
              else LooksAgain(Value()) && backoff.attempt == 1 && backoff.losses == 0
    {
      if state.Stopped? || state.Open? || state.Opening? { return; }
      ghost var s := Value();
      ClearTimer();
      ConnectAfresh();
      ClearedMayConnect(s, config);
      AfreshLooksAgain(A.ClearTimer(s), config);
    }

    /** The old port is being closed, and the new device is looked for once it is. */
    method FollowDevice(isSame: bool)
      requires Valid()
      modifies this, backoff
      ensures Valid() && Value() == A.OnFollowDevice(old(Value()), isSame)
      ensures if old(state).Stopped? || (old(state.Open? || state.Opening?) && isSame) then Value() == old(Value())
              else LooksAgain(Value()) && !hasFoundPort && backoff.attempt == 1 && backoff.losses == 0
      ensures old(state.Open? || state.Opening?) && !isSame ==> old(state).port in teardown
    {
      if state.Stopped? || ((state.Open? || state.Opening?) && isSame) { return; }
      ghost var s := Value();
      ClearTimer();
      Leave();
      hasFoundPort, foundPortDetached := false, false;
      ConnectAfresh();
      assert Value() == A.OnFollowDevice(s, isSame);
      FollowingLooksAgain(s, config, isSame);
    }

    /** A retry that waits is made at once, keeping its count; a supervisor that gave up starts afresh. */
    method HandleDeviceConnected()
      requires Valid()
      modifies this, backoff
      ensures Valid() && Value() == A.OnDeviceConnected(old(Value()), config)
      ensures Revived(old(Value()), config, Value())
    {
      ghost var s := Value();
      LookAgain();
      A.DeviceConnectedKeepsInv(s, config);
      ReappearanceLooksAgain(s, config);
    }

    method LookAgain()
      modifies this, backoff
      ensures Value() == A.OnDeviceConnected(old(Value()), config)
    {
      foundPortDetached := false;
      if state.Listing? {
        deviceConnectedWhileListing := true;
        return;
      }
      if state.Reconnecting? {
        ClearTimer();
        Connect();
        return;
      }
      if state.Failed? && !config.autoReconnect { return; }
      if state.Failed? || state.AwaitingPermission? { ConnectAfresh(); }
    }

    /** A connection is lost with its device; a search for permission turns into a retry; all else goes on. */
    method HandleDeviceDisconnected(at: A.Moment)
      requires Valid() && hasFoundPort
      modifies this, backoff
      ensures Valid() && Value() == A.OnDeviceDisconnected(old(Value()), config, at) && foundPortDetached
      ensures if old(state.Open? || state.Opening? || state.AwaitingPermission?) then WaitsOrGaveUp(Value(), config)
              else Value() == old(Value()).(foundPortDetached := true)
    {
      ghost var s := Value();
      foundPortDetached := true;
      if state.Open? || state.Opening? {
        HandleConnectionLoss(at, true);
      } else if state.AwaitingPermission? {
        RecordFailedAttempt(at);
      }
      assert Value() == A.OnDeviceDisconnected(s, config, at);
      A.DeviceDisconnectedKeepsInv(s, config, at);
      if A.IsConnection(s.kind) || s.kind.AwaitingPermission? {
        DisconnectionWaitsOrGivesUp(s, config, at);
      }
    }

    method TimerFires(t: nat)
      requires Valid() && t in timers
      modifies this, backoff
      ensures Valid() && Value() == A.OnTimer(old(Value()), t)
      ensures LooksAgain(Value()) && backoff.Value() == old(backoff.Value()).AfterAttempt()
    {
      ghost var s := Value();
      timers := timers - {t};
      if state.Reconnecting? { Connect(); }
      assert Value() == A.OnTimer(s, t);
      A.TimerKeepsInv(s, config, t);
      ConnectLooksAgain(s.(timers := s.timers - {t}), config);
    }

    /** No attempt is current any more, no timer is armed, and everything open is being closed. */
    method Stop()
      requires Valid()
      modifies this
      ensures Valid() && Value() == A.OnStop(old(Value()))
      ensures !old(state).Stopped? ==>
                state.Stopped? && timers == {} && AllStale(Value()) && NothingOpen(Value())
                && (old(state).Open? ==> draining == {old(state).port})
                && (old(state).Opening? ==> teardown == {old(state).port})
    {
      if state.Stopped? { return; }
      ghost var s := Value();
      EnterStopped();
      A.StopKeepsInv(s, config);
      StoppingClosesAll(s, config);
    }

    /** The first turn of `#stop`. */
    method EnterStopped()
      requires !state.Stopped?
      modifies this
      ensures Value() == A.OnStop(old(Value()))
    {
      var previous := state;
      ClearTimer();
      generation := generation + 1;
      state := A.Stopped;
      if previous.Open? {
        draining := draining + {previous.port};
      } else if previous.Opening? {
        teardown := teardown + {previous.port};
      }
    }

    // --- Continuations of an attempt --------------------------------------------------------------

    method TeardownAwaited(g: nat)
      requires Valid() && A.Enabled(Value(), A.TeardownAwaited(g))
      modifies this
      ensures Valid() && Value() == A.OnTeardownAwaited(old(Value()), g)
      ensures !old(IsStale(g)) ==> teardown == {} && attempts[g] == A.ListingPorts
    {
      A.TeardownAwaitedKeepsInv(Value(), config, g);
      if IsStale(g) {
        EndAttempt(g);
      } else {
        deviceConnectedWhileListing := false;
        attempts := attempts[g := A.ListingPorts];
      }
    }

    /**
     * A listing finds the port while nothing is open; finds none, and asks for permission unless the device is
     * away or has just come back; or fails.
     */
    method ListingEnds(g: nat, result: A.Listed, at: A.Moment)
      requires Valid() && A.Enabled(Value(), A.ListingEnds(g, result, at))
      modifies this, backoff
      ensures Valid() && Value() == A.OnListingEnds(old(Value()), config, g, result, at)
      ensures old(IsStale(g)) ==> Value() == A.EndAttempt(old(Value()), g)
      ensures !old(IsStale(g)) ==> LookedFor(old(Value()), config, g, result, Value())
    {
      ghost var s := Value();
      if IsStale(g) {
        EndAttempt(g);
        A.ListingKeepsInv(s, config, g, result, at);
        return;
      }
      match result {
        case TimedOut =>
          HandleConnectionLoss(at, true);
          EndAttempt(g);
          A.EndAndLossCommute(s, config, g, at, true);
        case Refused =>
          EndAttempt(g);
          state := A.Failed;
        case PortFound =>
          attempts := attempts[g := A.Found];
        case NoPort =>
          LookedInVain(g, at);
      }
      assert Value() == A.OnListingEnds(s, config, g, result, at);
      A.ListingKeepsInv(s, config, g, result, at);
      ListingMeans(s, config, g, result, at);
    }

    method LookedInVain(g: nat, at: A.Moment)
      requires !IsStale(g)
      modifies this, backoff
      ensures Value() == A.OnListingEnds(old(Value()), config, g, A.NoPort, at)
    {
      if deviceConnectedWhileListing {
        deviceConnectedWhileListing := false;
        return;
      }
      EndAttempt(g);
      if foundPortDetached { RecordFailedAttempt(at); } else { state := A.AwaitingPermission; }
    }

    /** The current attempt opens its port while no other is open; an overtaken one opens its port all the same. */
    method OpenPort(g: nat)
      requires Valid() && A.Enabled(Value(), A.OpenPort(g))
      modifies this
      ensures Value() == A.OnOpenPort(old(Value()), g)
      ensures Valid() <==> !old(IsStale(g))
      ensures state.Opening? && (!old(IsStale(g)) ==> forall h :: A.IsLive(Value(), h) <==> h == state.port)
    {
      ghost var s := Value();
      hasFoundPort, foundPortDetached := true, false;
      devices := devices[nextPort := A.Pending];
      state := A.Opening(nextPort);
      attempts := attempts[g := A.OpeningPort(nextPort)];
      nextPort := nextPort + 1;
      assert Value() == A.OnOpenPort(s, g);
      OpeningMeans(s, config, g);
    }

    /** A port that opened is kept by the current attempt only; one that did not is a loss. */
    method OpenAnswered(g: nat, retryable: bool, at: A.Moment)
      requires Valid() && A.Enabled(Value(), A.OpenAnswered(g, retryable, at))
      modifies this, backoff
      ensures Valid() && Value() == A.OnOpenAnswered(old(Value()), config, g, retryable, at)
      ensures old(IsStale(g)) ==> Value() == A.EndAttempt(old(Value()), g)
      ensures !old(IsStale(g)) ==>
                if old(attempts[g]).port in succeeded then state == old(state) && attempts[g] == A.Opened(state.port)
                else WaitsOrGaveUp(Value(), config) && (!retryable ==> state.Failed?)
    {
      ghost var s := Value();
      if IsStale(g) {
        EndAttempt(g);
      } else if attempts[g].port in succeeded {
        assert A.Fits(s, attempts[g]);
        attempts := attempts[g := A.Opened(attempts[g].port)];
      } else {
        assert A.Fits(s, attempts[g]);
        HandleConnectionLoss(at, retryable);
        EndAttempt(g);
        A.EndAndLossCommute(s, config, g, at, retryable);
        LossWaitsOrGivesUp(s, config, at, retryable);
        EndingStillWaits(A.HandleConnectionLoss(s, config, at, retryable), config, g);
      }
      A.AnsweredKeepsInv(s, config, g, retryable, at);
    }

    /** The open outlived its deadline, or the stream of an open connection ended: a loss, unless overtaken. */
    method ConnectionEnds(g: nat, at: A.Moment)
      requires Valid() && g in attempts
      modifies this, backoff
      ensures Valid() && Value() == A.OnLost(old(Value()), config, g, at, true)
      ensures if old(IsStale(g)) then Value() == A.EndAttempt(old(Value()), g)
              else old(!state.Reconnecting?) ==> WaitsOrGaveUp(Value(), config)
    {
      ghost var s := Value();
      var isStale := IsStale(g);
      if !isStale { HandleConnectionLoss(at, true); }
      EndAttempt(g);
      A.EndAndLossCommute(s, config, g, at, true);
      A.LostKeepsInv(s, config, g, at, true);
      if !isStale && !s.kind.Reconnecting? {
        LossWaitsOrGivesUp(s, config, at, true);
        EndingStillWaits(A.HandleConnectionLoss(s, config, at, true), config, g);
      }
    }

    /** The streams of the port are taken without a look at the generation; without streams it is a loss. */
    method StartReading(g: nat, streams: A.Streams, at: A.Moment)
      requires Valid() && A.Enabled(Value(), A.TakeStreams(g, streams, at))
      modifies this, backoff
      ensures Value() == A.OnTakeStreams(old(Value()), config, g, streams, at)
      ensures Valid() <==> !(streams.Taken? && old(IsStale(g)))
      ensures streams.Taken? ==>
                state == A.Open(old(attempts[g]).port) && attempts[g] == A.Reading(state.port)
                && backoff.connectedAt.Some? && backoff.connectedAt.value == at.now
      ensures !streams.Taken? && !old(IsStale(g)) ==> WaitsOrGaveUp(Value(), config)
    {
      ghost var s := Value();
      match streams {
        case Taken =>
          var h := attempts[g].port;
          state := A.Open(h);
          backoff.RecordConnected(at.now);
          attempts := attempts[g := A.Reading(h)];
        case Missing =>
          HandleConnectionLoss(at, true);
          EndAttempt(g);
          A.EndAndLossCommute(s, config, g, at, true);
        case Throws(retryable) =>
          if !IsStale(g) { HandleConnectionLoss(at, retryable); }
          EndAttempt(g);
          A.EndAndLossCommute(s, config, g, at, retryable);
      }
      assert Value() == A.OnTakeStreams(s, config, g, streams, at);
      A.TakingNeedsTheCurrentAttempt(s, config, g, streams, at);
      if !streams.Taken? && !A.IsStale(s, g) {
        WithoutStreamsIsALoss(s, config, g, streams, at);
      }
    }
  }
}
