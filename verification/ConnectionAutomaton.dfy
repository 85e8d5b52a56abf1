/**
 * Keeping the port open: the connection automaton of `PortSupervisor` in `src/owner/port-supervisor.ts`.
 *
 * Every `await` of the program ends a step. An attempt to connect is a continuation, named by the
 * generation it was started in, and the place it waits at; it is resumed by a step that may come at any
 * time. In particular an attempt stands still for one turn between finding the port and opening it
 * (`Found`), and between the open being answered and its streams being taken (`Opened`): these are the
 * two places where `#connect` awaits a step of its own and does not look at the generation again.
 */
module ConnectionAutomaton {
  import opened Backoff

  /** One call of the platform's `open()`, and what has become of the device it opened. */
  type Handle = nat

  datatype Device =
    | Pending    // `open()` has not settled
    | Held       // the device is open
    | Closed     // closed again, or never opened
    | GivenUp    // a step of closing it outlived its deadline

  datatype Kind =
    | Idle | AwaitingPermission | Listing
    | Opening(port: Handle) | Open(port: Handle)
    | Reconnecting(timer: nat, delayMs: int, draw: real)   // `draw` is history: no step looks at it
    | Failed | Stopped

  datatype Attempt =
    | AwaitingTeardown(closes: set<Handle>)
    | ListingPorts
    | Found
    | OpeningPort(port: Handle)
    | Opened(port: Handle)
    | Reading(port: Handle)

  /** What the clock says during a step, and what the random source returns if the step asks it. */
  datatype Moment = Moment(now: int, draw: real)

  datatype Config = Config(backoff: Settings, stableAfterMs: nat, autoReconnect: bool)

  datatype State = State(
    kind: Kind,
    generation: nat,
    attempts: map<nat, Attempt>,
    devices: map<Handle, Device>,
    nextPort: Handle,
    succeeded: set<Handle>,           // the handles whose `open()` succeeded
    teardown: set<Handle>,            // closes in progress that the next attempt and `stop()` wait for
    draining: set<Handle>,            // the connection `stop()` closes once its writes have drained
    timers: set<nat>,                 // armed retry timers
    nextTimer: nat,
    counters: Counters,
    connectedWhileListing: bool,
    hasFoundPort: bool,
    foundPortDetached: bool)

  const New := State(Idle, 0, map[], map[], 0, {}, {}, {}, {}, 0, NO_ATTEMPTS, false, false, false)

  predicate IsStale(s: State, g: nat) { s.generation != g || s.kind.Stopped? }

  predicate IsLive(s: State, h: Handle) { h in s.devices && (s.devices[h].Pending? || s.devices[h].Held?) }

  // --- What the methods do ----------------------------------------------------------------------

  function ClearTimer(s: State): State {
    if s.kind.Reconnecting? then s.(timers := s.timers - {s.kind.timer}) else s
  }

  /** `#connect`, up to its first await. */
  function Connect(s: State): State {
    if s.kind.Stopped? then s
    else
      s.(generation := s.generation + 1,
         counters := s.counters.AfterAttempt(),
         kind := Listing,
         connectedWhileListing := if s.teardown == {} then false else s.connectedWhileListing,
         attempts := s.attempts[s.generation + 1 :=
           if s.teardown == {} then ListingPorts else AwaitingTeardown(s.teardown)])
  }

  function Afresh(s: State): State { Connect(s.(counters := NO_ATTEMPTS, kind := Idle)) }

  /** Closing what the state being left holds open is tracked. */
  function TrackTeardown(s: State): State {
    if s.kind.Opening? || s.kind.Open? then s.(teardown := s.teardown + {s.kind.port}) else s
  }

  /** Leaves a connection or an attempt: what is open is closed, what is awaited goes stale. Callers set the kind. */
  function Left(s: State): State { TrackTeardown(s).(generation := s.generation + 1, kind := Failed) }

  /** `#recordFailedAttempt`. */
  function RecordFailedAttempt(s: State, c: Config, at: Moment): State {
    if !c.autoReconnect then s.(kind := Failed)
    else
      var counters := s.counters.AfterLoss(at.now, c.stableAfterMs);
      if counters.HasExhausted(c.backoff) then s.(counters := counters, kind := Failed)
      else
        s.(counters := counters,
           kind := Reconnecting(s.nextTimer, DelayMs(counters.RetryIndex(), c.backoff, at.draw), at.draw),
           timers := s.timers + {s.nextTimer}, nextTimer := s.nextTimer + 1)
  }

  /** `#handleConnectionLoss`. */
  function HandleConnectionLoss(s: State, c: Config, at: Moment, retry: bool): State {
    if s.kind.Stopped? || s.kind.Reconnecting? then s
    else
      if retry then RecordFailedAttempt(Left(s), c, at) else Left(s)
  }

  function EndAttempt(s: State, g: nat): State { s.(attempts := s.attempts - {g}) }

  datatype Listed = PortFound | NoPort | TimedOut | Refused

  datatype Streams = Taken | Missing | Throws(retryable: bool)

  datatype Step =
    | Start(fromFailed: bool)
    | Retry
    | UseGrantedPort
    | FollowDevice(isSame: bool)
    | DeviceConnected
    | DeviceDisconnected(at: Moment)
    | TimerFires(timer: nat)
    | Stop
    | DrainDone(port: Handle)
    | TeardownDone(port: Handle, isClosed: bool)
    | OpenSettles(port: Handle, succeeds: bool)
    | WriteFails(port: Handle, at: Moment)
    // continuations of an attempt
    | TeardownAwaited(attempt: nat)
    | ListingEnds(attempt: nat, result: Listed, at: Moment)
    | OpenPort(attempt: nat)
    | OpenThrows(attempt: nat, isRetryable: bool, at: Moment)
    | OpenAnswered(attempt: nat, isRetryable: bool, at: Moment)
    | OpenTimesOut(attempt: nat, at: Moment)
    | TakeStreams(attempt: nat, streams: Streams, at: Moment)
    | ReadEnds(attempt: nat, at: Moment)

  predicate IsContinuation(step: Step) {
    step.TeardownAwaited? || step.ListingEnds? || step.OpenPort? || step.OpenThrows? || step.OpenAnswered?
    || step.OpenTimesOut? || step.TakeStreams? || step.ReadEnds?
  }

  predicate ContinuationEnabled(s: State, step: Step)
    requires IsContinuation(step)
  {
    step.attempt in s.attempts &&
    var a := s.attempts[step.attempt];
    match step
    case TeardownAwaited(_) => a.AwaitingTeardown? && a.closes !! s.teardown
    case ListingEnds(_, _, _) => a.ListingPorts?
    case OpenPort(_) => a.Found?
    case OpenThrows(_, _, _) => a.Found?
    case OpenAnswered(_, _, _) => a.OpeningPort? && a.port in s.devices && !s.devices[a.port].Pending?
    case OpenTimesOut(_, _) => a.OpeningPort? && a.port in s.devices && s.devices[a.port].Pending?
    case TakeStreams(_, _, _) => a.Opened?
    case ReadEnds(_, _) => a.Reading?
  }

  predicate Enabled(s: State, step: Step) {
    if IsContinuation(step) then ContinuationEnabled(s, step)
    else
      match step
      case TimerFires(t) => t in s.timers
      case DrainDone(h) => h in s.draining
      case TeardownDone(h, isClosed) => h in s.teardown && (isClosed ==> h in s.devices && !s.devices[h].Pending?)
      case OpenSettles(h, _) => h in s.devices && s.devices[h].Pending?
      case DeviceDisconnected(_) => s.hasFoundPort
      case _ => true
  }

  // --- What a continuation does; `OnOpenPort` and `OnTakeStreams` do it without looking at the generation

  function OnTeardownAwaited(s: State, g: nat): State {
    if IsStale(s, g) then EndAttempt(s, g)
    else s.(attempts := s.attempts[g := ListingPorts], connectedWhileListing := false)
  }

  function OnListingEnds(s: State, c: Config, g: nat, result: Listed, at: Moment): State {
    var ended := EndAttempt(s, g);
    if IsStale(s, g) then ended
    else
      match result
      case TimedOut => HandleConnectionLoss(ended, c, at, true)
      case Refused => ended.(kind := Failed)
      case PortFound => s.(attempts := s.attempts[g := Found])
      case NoPort =>
        if s.connectedWhileListing then s.(connectedWhileListing := false)
        else if s.foundPortDetached then RecordFailedAttempt(ended, c, at)
        else ended.(kind := AwaitingPermission)
  }

  function OnOpenPort(s: State, g: nat): State {
    var h := s.nextPort;
    s.(hasFoundPort := true, foundPortDetached := false, devices := s.devices[h := Pending], nextPort := h + 1,
       kind := Opening(h), attempts := s.attempts[g := OpeningPort(h)])
  }

  function OnOpenThrows(s: State, c: Config, g: nat, retryable: bool, at: Moment): State {
    var s' := EndAttempt(s, g).(hasFoundPort := true, foundPortDetached := false);
    if IsStale(s, g) then s' else HandleConnectionLoss(s', c, at, retryable)
  }

  function OnOpenAnswered(s: State, c: Config, g: nat, retryable: bool, at: Moment): State
    requires g in s.attempts && s.attempts[g].OpeningPort?
  {
    if IsStale(s, g) then EndAttempt(s, g)
    else if s.attempts[g].port in s.succeeded then s.(attempts := s.attempts[g := Opened(s.attempts[g].port)])
    else HandleConnectionLoss(EndAttempt(s, g), c, at, retryable)
  }

  /** Ends the attempt; a loss, unless the attempt was overtaken. */
  function OnLost(s: State, c: Config, g: nat, at: Moment, retryable: bool): State {
    if IsStale(s, g) then EndAttempt(s, g) else HandleConnectionLoss(EndAttempt(s, g), c, at, retryable)
  }

  function OnTakeStreams(s: State, c: Config, g: nat, streams: Streams, at: Moment): State
    requires g in s.attempts && s.attempts[g].Opened?
  {
    var h := s.attempts[g].port;
    match streams
    case Taken => s.(kind := Open(h), counters := s.counters.AfterConnected(at.now),
                     attempts := s.attempts[g := Reading(h)])
    case Missing => HandleConnectionLoss(EndAttempt(s, g), c, at, true)
    case Throws(retryable) => OnLost(s, c, g, at, retryable)
  }

  function Resume(s: State, c: Config, step: Step): State
    requires IsContinuation(step) && ContinuationEnabled(s, step)
  {
    match step
    case TeardownAwaited(g) => OnTeardownAwaited(s, g)
    case ListingEnds(g, result, at) => OnListingEnds(s, c, g, result, at)
    case OpenPort(g) => OnOpenPort(s, g)
    case OpenThrows(g, retryable, at) => OnOpenThrows(s, c, g, retryable, at)
    case OpenAnswered(g, retryable, at) => OnOpenAnswered(s, c, g, retryable, at)
    case OpenTimesOut(g, at) => OnLost(s, c, g, at, true)
    case TakeStreams(g, streams, at) => OnTakeStreams(s, c, g, streams, at)
    case ReadEnds(g, at) => OnLost(s, c, g, at, true)
  }

  // --- What a call, an event or a settled promise does -------------------------------------------

  function OnStart(s: State, fromFailed: bool): State {
    if !s.kind.Idle? then s else if fromFailed then s.(kind := Failed) else Connect(s)
  }

  function OnRetry(s: State): State {
    if s.kind.Failed? || s.kind.AwaitingPermission? then Afresh(s) else s
  }

  function OnUseGrantedPort(s: State): State {
    if s.kind.Stopped? || s.kind.Open? || s.kind.Opening? then s else Afresh(ClearTimer(s))
  }

  function OnFollowDevice(s: State, isSame: bool): State {
    if s.kind.Stopped? || ((s.kind.Open? || s.kind.Opening?) && isSame) then s
    else
      Afresh(Left(ClearTimer(s)).(hasFoundPort := false, foundPortDetached := false))
  }

  function OnDeviceConnected(s: State, c: Config): State {
    var s' := s.(foundPortDetached := false);
    if s.kind.Listing? then s'.(connectedWhileListing := true)
    else if s.kind.Reconnecting? then Connect(ClearTimer(s'))
    else if s.kind.Failed? && !c.autoReconnect then s'
    else if s.kind.Failed? || s.kind.AwaitingPermission? then Afresh(s')
    else s'
  }

  function OnDeviceDisconnected(s: State, c: Config, at: Moment): State {
    var s' := s.(foundPortDetached := true);
    if s.kind.Open? || s.kind.Opening? then HandleConnectionLoss(s', c, at, true)
    else if s.kind.AwaitingPermission? then RecordFailedAttempt(s', c, at)
    else s'
  }

  function OnTimer(s: State, t: nat): State {
    var s' := s.(timers := s.timers - {t});
    if s.kind.Reconnecting? then Connect(s') else s'
  }

  function OnStop(s: State): State {
    if s.kind.Stopped? then s
    else
      var s' := ClearTimer(s).(generation := s.generation + 1, kind := Stopped);
      if s.kind.Open? then s'.(draining := s.draining + {s.kind.port})
      else if s.kind.Opening? then s'.(teardown := s.teardown + {s.kind.port})
      else s'
  }

  function OnTeardownDone(s: State, h: Handle, isClosed: bool): State {
    s.(teardown := s.teardown - {h}, devices := s.devices[h := if isClosed then Closed else GivenUp])
  }

  function OnOpenSettles(s: State, h: Handle, succeeds: bool): State {
    s.(devices := s.devices[h := if succeeds then Held else Closed],
       succeeded := if succeeds then s.succeeded + {h} else s.succeeded)
  }

  function After(s: State, c: Config, step: Step): State
    requires Enabled(s, step)
  {
    if IsContinuation(step) then Resume(s, c, step)
    else
      match step
      case Start(fromFailed) => OnStart(s, fromFailed)
      case Retry => OnRetry(s)
      case UseGrantedPort => OnUseGrantedPort(s)
      case FollowDevice(isSame) => OnFollowDevice(s, isSame)
      case DeviceConnected => OnDeviceConnected(s, c)
      case DeviceDisconnected(at) => OnDeviceDisconnected(s, c, at)
      case TimerFires(t) => OnTimer(s, t)
      case Stop => OnStop(s)
      case DrainDone(h) => s.(draining := s.draining - {h}, teardown := s.teardown + {h})
      case TeardownDone(h, isClosed) => OnTeardownDone(s, h, isClosed)
      case OpenSettles(h, succeeds) => OnOpenSettles(s, h, succeeds)
      case WriteFails(h, at) => if s.kind == Open(h) then HandleConnectionLoss(s, c, at, true) else s
  }

  // --- The invariant ----------------------------------------------------------------------------

  /** Ports being closed: tracked for the next attempt, or held by `stop()` until its writes drained. */
  function Closing(s: State): set<Handle> { s.teardown + s.draining }

  /** A retry timer is armed exactly while reconnecting, and it is the one the state names. */
  ghost predicate TimerOk(s: State) {
    && (if s.kind.Reconnecting? then s.timers == {s.kind.timer} else s.timers == {})
    && (forall t :: t in s.timers ==> t < s.nextTimer)
  }

  /** Attempts are bounded, and another one is scheduled only while one is left. */
  ghost predicate CountOk(s: State, c: Config) {
    c.backoff.maxAttempts.Some? ==> (
      && s.counters.attempt <= c.backoff.maxAttempts.value
      && (s.kind.Reconnecting? ==> s.counters.attempt < c.backoff.maxAttempts.value)
      && (s.kind.Idle? ==> s.counters.attempt == 0))
  }

  predicate IsConnection(k: Kind) { k.Opening? || k.Open? }

  /** Every open port is the connection's or being closed, and a connection has nothing beside it. */
  ghost predicate PortsOk(s: State) {
    && (forall h :: h in s.devices ==> h < s.nextPort)
    && (forall h :: h in Closing(s) ==> h in s.devices)
    && (forall h :: IsLive(s, h) ==> (IsConnection(s.kind) && s.kind.port == h) || h in Closing(s))
    && (IsConnection(s.kind) ==> s.kind.port in s.devices && Closing(s) == {})
    && (forall h, h' :: h in Closing(s) && h' in Closing(s) ==> h == h')
    && s.teardown !! s.draining
    && (s.draining != {} ==> s.kind.Stopped?)
  }

  /** Where the attempt of the current generation may wait, as the state of the connection tells. */
  predicate Fits(s: State, a: Attempt) {
    match a
    case AwaitingTeardown(closes) => s.kind.Listing? && s.teardown <= closes
    case ListingPorts => s.kind.Listing? && s.teardown == {}
    case Found => s.kind.Listing? && s.teardown == {}
    case OpeningPort(h) => s.kind == Opening(h)
    case Opened(h) => s.kind == Opening(h)
    case Reading(h) => s.kind == Open(h)
  }

  predicate HasPort(a: Attempt) { a.OpeningPort? || a.Opened? || a.Reading? }

  /** No attempt is of a later generation, and no two of them have opened the same port. */
  ghost predicate AttemptsKnown(s: State) {
    && (forall g :: g in s.attempts ==> g <= s.generation)
    && (forall g :: g in s.attempts && HasPort(s.attempts[g]) ==> s.attempts[g].port < s.nextPort)
    && (forall g, g' :: g in s.attempts && g' in s.attempts && g != g' ==>
          !(HasPort(s.attempts[g]) && HasPort(s.attempts[g']) && s.attempts[g].port == s.attempts[g'].port))
  }

  /** The current attempt is where the state says it is, and every other attempt is an older one. */
  ghost predicate AttemptsOk(s: State) {
    && AttemptsKnown(s)
    && (s.generation in s.attempts ==> Fits(s, s.attempts[s.generation]))
    && (IsConnection(s.kind) ==> s.generation in s.attempts)
  }

  ghost predicate Inv(s: State, c: Config) { TimerOk(s) && CountOk(s, c) && PortsOk(s) && AttemptsOk(s) }

  /** The steps that name a port the state's own: opening one, and taking the streams of one. */
  predicate NamesItsPort(step: Step) { step.OpenPort? || (step.TakeStreams? && step.streams.Taken?) }

  /** The attempt that names a port the state's own is still the current one. */
  predicate ResumesCurrent(s: State, step: Step) {
    NamesItsPort(step) ==> !IsStale(s, step.attempt)
  }

  // --- What the shared transitions keep ---------------------------------------------------------

  /** Between two connections: nothing is open but what is being closed, and no attempt is current. */
  ghost predicate Between(s: State) {
    && PortsOk(s) && !IsConnection(s.kind) && !s.kind.Stopped?
    && s.timers == {}
    && AttemptsOk(s) && s.generation !in s.attempts
  }

  lemma ConnectKeepsInv(s: State, c: Config)
    requires PortsOk(s) && !IsConnection(s.kind) && !s.kind.Stopped? && s.timers == {} && AttemptsKnown(s)
    requires c.backoff.maxAttempts.Some? ==> s.counters.attempt < c.backoff.maxAttempts.value
    ensures Inv(Connect(s), c)
  {
  }

  lemma RecordFailedAttemptKeepsInv(s: State, c: Config, at: Moment)
    requires Between(s) && c.backoff.Valid()
    requires c.backoff.maxAttempts.Some? ==> s.counters.attempt <= c.backoff.maxAttempts.value
    ensures Inv(RecordFailedAttempt(s, c, at), c)
  {
  }

  lemma LeavingTracks(s: State)
    requires PortsOk(s) && AttemptsOk(s) && s.timers == {} && !s.kind.Stopped?
    ensures Between(Left(s))
  {
    var s' := Left(s);
    assert forall h :: h in Closing(s') <==> h in Closing(s) || (IsConnection(s.kind) && h == s.kind.port);
  }

  lemma LossKeepsInv(s: State, c: Config, at: Moment, retry: bool)
    requires Inv(s, c) && c.backoff.Valid()
    ensures Inv(HandleConnectionLoss(s, c, at, retry), c)
  {
    if !s.kind.Stopped? && !s.kind.Reconnecting? {
      LeavingTracks(s);
      RecordFailedAttemptKeepsInv(Left(s), c, at);
    }
  }

  // --- Every step keeps the invariant -----------------------------------------------------------

  lemma AfreshKeepsInv(s: State, c: Config)
    requires PortsOk(s) && !IsConnection(s.kind) && !s.kind.Stopped? && s.timers == {} && AttemptsKnown(s)
    requires c.backoff.Valid()
    ensures Inv(Afresh(s), c)
  {
    ConnectKeepsInv(s.(counters := NO_ATTEMPTS, kind := Idle), c);
  }

  lemma ClearingKeeps(s: State, c: Config)
    requires Inv(s, c)
    ensures PortsOk(ClearTimer(s)) && AttemptsOk(ClearTimer(s)) && ClearTimer(s).timers == {}
    ensures ClearTimer(s).kind == s.kind
  {
  }

  lemma BetweenIgnoresFlags(s: State, s': State)
    requires Between(s) && s' == s.(hasFoundPort := false, foundPortDetached := false)
    ensures Between(s')
  {
  }

  lemma FollowKeepsInv(s: State, c: Config, isSame: bool)
    requires Inv(s, c) && c.backoff.Valid()
    ensures Inv(OnFollowDevice(s, isSame), c)
  {
    if !s.kind.Stopped? {
      ClearingKeeps(s, c);
      LeavingTracks(ClearTimer(s));
      var left := Left(ClearTimer(s));
      BetweenIgnoresFlags(left, left.(hasFoundPort := false, foundPortDetached := false));
      AfreshKeepsInv(left.(hasFoundPort := false, foundPortDetached := false), c);
    }
  }

  lemma FlagsKeepInv(s: State, s': State, c: Config)
    requires Inv(s, c)
    requires s' == s.(hasFoundPort := s'.hasFoundPort, foundPortDetached := s'.foundPortDetached,
                      connectedWhileListing := s'.connectedWhileListing)
    ensures Inv(s', c)
  {
  }

  lemma DeviceConnectedKeepsInv(s: State, c: Config)
    requires Inv(s, c) && c.backoff.Valid()
    ensures Inv(OnDeviceConnected(s, c), c)
  {
    var s' := s.(foundPortDetached := false);
    FlagsKeepInv(s, s', c);
    if s.kind.Reconnecting? {
      ConnectKeepsInv(ClearTimer(s'), c);
    } else if s.kind.Listing? {
      FlagsKeepInv(s, s'.(connectedWhileListing := true), c);
    } else if s.kind.Failed? || s.kind.AwaitingPermission? {
      AfreshKeepsInv(s', c);
    }
  }

  lemma DeviceDisconnectedKeepsInv(s: State, c: Config, at: Moment)
    requires Inv(s, c) && c.backoff.Valid()
    ensures Inv(OnDeviceDisconnected(s, c, at), c)
  {
    var s' := s.(foundPortDetached := true);
    FlagsKeepInv(s, s', c);
    if IsConnection(s.kind) {
      LossKeepsInv(s', c, at, true);
    } else if s.kind.AwaitingPermission? {
      RecordFailedAttemptKeepsInv(s', c, at);
    }
  }

  lemma TimerKeepsInv(s: State, c: Config, t: nat)
    requires Inv(s, c) && t in s.timers
    ensures Inv(OnTimer(s, t), c)
  {
    ConnectKeepsInv(s.(timers := s.timers - {t}), c);
  }

  lemma StopKeepsInv(s: State, c: Config)
    requires Inv(s, c)
    ensures Inv(OnStop(s), c)
  {
    if IsConnection(s.kind) {
      StopClosesConnection(s, c);
    } else if !s.kind.Stopped? {
      StopLeavesAttempts(s, c);
    }
  }

  lemma StopClosesConnection(s: State, c: Config)
    requires Inv(s, c) && IsConnection(s.kind)
    ensures Inv(OnStop(s), c)
  {
    assert Closing(OnStop(s)) == {s.kind.port};
  }

  lemma StopLeavesAttempts(s: State, c: Config)
    requires Inv(s, c) && !IsConnection(s.kind)
    ensures Inv(OnStop(s), c)
  {
    assert Closing(OnStop(s)) == Closing(s);
  }

  lemma ClosingKeepsInv(s: State, c: Config, h: Handle, isClosed: bool)
    requires Inv(s, c) && h in s.teardown
    ensures Inv(OnTeardownDone(s, h, isClosed), c)
  {
    assert Closing(OnTeardownDone(s, h, isClosed)) == Closing(s) - {h};
  }

  lemma DrainingKeepsInv(s: State, c: Config, h: Handle)
    requires Inv(s, c) && h in s.draining
    ensures Inv(s.(draining := s.draining - {h}, teardown := s.teardown + {h}), c)
  {
    assert Closing(s.(draining := s.draining - {h}, teardown := s.teardown + {h})) == Closing(s);
  }

  lemma OpenSettlingKeepsInv(s: State, c: Config, h: Handle, succeeds: bool)
    requires Inv(s, c) && h in s.devices && s.devices[h].Pending?
    ensures Inv(OnOpenSettles(s, h, succeeds), c)
  {
    var s' := OnOpenSettles(s, h, succeeds);
    assert IsLive(s, h) && forall h' :: IsLive(s', h') ==> IsLive(s, h');
  }

  lemma EndingKeepsInv(s: State, c: Config, g: nat)
    requires Inv(s, c)
    requires g == s.generation ==> !IsConnection(s.kind)
    ensures Inv(EndAttempt(s, g), c)
  {
  }

  lemma EndAndRecordCommute(s: State, c: Config, g: nat, at: Moment)
    ensures EndAttempt(RecordFailedAttempt(s, c, at), g) == RecordFailedAttempt(EndAttempt(s, g), c, at)
  {
  }

  lemma EndAndLossCommute(s: State, c: Config, g: nat, at: Moment, retry: bool)
    ensures EndAttempt(HandleConnectionLoss(s, c, at, retry), g) == HandleConnectionLoss(EndAttempt(s, g), c, at, retry)
  {
    EndAndRecordCommute(Left(s), c, g, at);
    assert EndAttempt(Left(s), g) == Left(EndAttempt(s, g));
  }

  lemma LossAdvances(s: State, c: Config, at: Moment, retry: bool)
    requires !s.kind.Stopped? && !s.kind.Reconnecting?
    ensures !IsConnection(HandleConnectionLoss(s, c, at, retry).kind)
  {
  }

  lemma LostKeepsInv(s: State, c: Config, g: nat, at: Moment, retry: bool)
    requires Inv(s, c) && c.backoff.Valid() && g in s.attempts
    ensures Inv(OnLost(s, c, g, at, retry), c)
  {
    if IsStale(s, g) {
      EndingKeepsInv(s, c, g);
    } else {
      LossKeepsInv(s, c, at, retry);
      LossAdvances(s, c, at, retry);
      EndingKeepsInv(HandleConnectionLoss(s, c, at, retry), c, g);
      EndAndLossCommute(s, c, g, at, retry);
    }
  }

  lemma TeardownAwaitedKeepsInv(s: State, c: Config, g: nat)
    requires Inv(s, c) && Enabled(s, TeardownAwaited(g))
    ensures Inv(OnTeardownAwaited(s, g), c)
  {
    if IsStale(s, g) { EndingKeepsInv(s, c, g); }
  }

  lemma ListingKeepsInv(s: State, c: Config, g: nat, result: Listed, at: Moment)
    requires Inv(s, c) && c.backoff.Valid() && g in s.attempts && s.attempts[g].ListingPorts?
    ensures Inv(OnListingEnds(s, c, g, result, at), c)
  {
    if IsStale(s, g) {
      EndingKeepsInv(s, c, g);
    } else if result.TimedOut? {
      LostKeepsInv(s, c, g, at, true);
    } else if result.NoPort? && s.connectedWhileListing {
      FlagsKeepInv(s, s.(connectedWhileListing := false), c);
    } else if result.NoPort? && s.foundPortDetached {
      EndingKeepsInv(s, c, g);
      RecordFailedAttemptKeepsInv(EndAttempt(s, g), c, at);
    } else {
      EndingKeepsInv(s, c, g);
    }
  }

  lemma ThrowingKeepsInv(s: State, c: Config, g: nat, retryable: bool, at: Moment)
    requires Inv(s, c) && c.backoff.Valid() && g in s.attempts && s.attempts[g].Found?
    ensures Inv(OnOpenThrows(s, c, g, retryable, at), c)
  {
    var s' := s.(hasFoundPort := true, foundPortDetached := false);
    FlagsKeepInv(s, s', c);
    LostKeepsInv(s', c, g, at, retryable);
  }

  lemma AnsweredKeepsInv(s: State, c: Config, g: nat, retryable: bool, at: Moment)
    requires Inv(s, c) && c.backoff.Valid() && g in s.attempts && s.attempts[g].OpeningPort?
    ensures Inv(OnOpenAnswered(s, c, g, retryable, at), c)
  {
    LostKeepsInv(s, c, g, at, retryable);
  }

  lemma OpeningKeepsInv(s: State, c: Config, g: nat)
    requires Inv(s, c) && g in s.attempts && s.attempts[g].Found? && !IsStale(s, g)
    ensures Inv(OnOpenPort(s, g), c)
  {
  }

  lemma TakingKeepsInv(s: State, c: Config, g: nat, streams: Streams, at: Moment)
    requires Inv(s, c) && c.backoff.Valid() && g in s.attempts && s.attempts[g].Opened?
    requires streams.Taken? ==> !IsStale(s, g)
    ensures Inv(OnTakeStreams(s, c, g, streams, at), c)
  {
    if streams.Throws? {
      LostKeepsInv(s, c, g, at, streams.retryable);
    } else if streams.Missing? && IsStale(s, g) {
      EndingKeepsInv(s, c, g);
      LossKeepsInv(EndAttempt(s, g), c, at, true);
    } else if streams.Missing? {
      LostKeepsInv(s, c, g, at, true);
    }
  }

  lemma ContinuationKeepsInv(s: State, c: Config, step: Step)
    requires Inv(s, c) && c.backoff.Valid() && IsContinuation(step) && ContinuationEnabled(s, step)
    requires ResumesCurrent(s, step)
    ensures Inv(Resume(s, c, step), c)
  {
    match step
    case TeardownAwaited(g) => TeardownAwaitedKeepsInv(s, c, g);
    case ListingEnds(g, result, at) => ListingKeepsInv(s, c, g, result, at);
    case OpenPort(g) => OpeningKeepsInv(s, c, g);
    case OpenThrows(g, retryable, at) => ThrowingKeepsInv(s, c, g, retryable, at);
    case OpenAnswered(g, retryable, at) => AnsweredKeepsInv(s, c, g, retryable, at);
    case OpenTimesOut(g, at) => LostKeepsInv(s, c, g, at, true);
    case TakeStreams(g, streams, at) => TakingKeepsInv(s, c, g, streams, at);
    case ReadEnds(g, at) => LostKeepsInv(s, c, g, at, true);
  }

  lemma StartKeepsInv(s: State, c: Config, fromFailed: bool)
    requires Inv(s, c) && c.backoff.Valid()
    ensures Inv(OnStart(s, fromFailed), c)
  {
    if s.kind.Idle? && !fromFailed { ConnectKeepsInv(s, c); }
  }

  lemma RetryKeepsInv(s: State, c: Config)
    requires Inv(s, c) && c.backoff.Valid()
    ensures Inv(OnRetry(s), c)
  {
    if s.kind.Failed? || s.kind.AwaitingPermission? { AfreshKeepsInv(s, c); }
  }

  lemma UseGrantedPortKeepsInv(s: State, c: Config)
    requires Inv(s, c) && c.backoff.Valid()
    ensures Inv(OnUseGrantedPort(s), c)
  {
    if !s.kind.Stopped? && !IsConnection(s.kind) {
      ClearingKeeps(s, c);
      AfreshKeepsInv(ClearTimer(s), c);
    }
  }

  /** Every step keeps the invariant, if an attempt is not overtaken in one of the two places it does not look. */
  lemma StepKeepsInv(s: State, c: Config, step: Step)
    requires Inv(s, c) && c.backoff.Valid() && Enabled(s, step) && ResumesCurrent(s, step)
    ensures Inv(After(s, c, step), c)
  {
    if IsContinuation(step) {
      ContinuationKeepsInv(s, c, step);
    } else {
      match step
      case FollowDevice(isSame) => FollowKeepsInv(s, c, isSame);
      case DeviceConnected => DeviceConnectedKeepsInv(s, c);
      case DeviceDisconnected(at) => DeviceDisconnectedKeepsInv(s, c, at);
      case TimerFires(t) => TimerKeepsInv(s, c, t);
      case WriteFails(_, at) => LossKeepsInv(s, c, at, true);
      case Stop => StopKeepsInv(s, c);
      case DrainDone(h) => DrainingKeepsInv(s, c, h);
      case TeardownDone(h, isClosed) => ClosingKeepsInv(s, c, h, isClosed);
      case OpenSettles(h, succeeds) => OpenSettlingKeepsInv(s, c, h, succeeds);
      case Start(fromFailed) => StartKeepsInv(s, c, fromFailed);
      case Retry => RetryKeepsInv(s, c);
      case UseGrantedPort => UseGrantedPortKeepsInv(s, c);
    }
  }

  // --- The two places where an attempt does not look --------------------------------------------

  /** Opening the port keeps the invariant exactly when the attempt is still the current one... */
  lemma {:induction false} OpeningNeedsTheCurrentAttempt(s: State, c: Config, g: nat)
    requires Inv(s, c) && c.backoff.Valid() && Enabled(s, OpenPort(g))
    ensures Inv(After(s, c, OpenPort(g)), c) <==> !IsStale(s, g)
  {
    if IsStale(s, g) {
      var s' := OnOpenPort(s, g);
      if s.generation in s.attempts {
        assert s'.attempts[s.generation] == s.attempts[s.generation];
      }
    } else {
      OpeningKeepsInv(s, c, g);
    }
  }

  /** ...and so does taking its streams. */
  lemma {:induction false} TakingNeedsTheCurrentAttempt(s: State, c: Config, g: nat, streams: Streams, at: Moment)
    requires Inv(s, c) && c.backoff.Valid() && Enabled(s, TakeStreams(g, streams, at))
    ensures Inv(After(s, c, TakeStreams(g, streams, at)), c) <==> !streams.Taken? || !IsStale(s, g)
  {
    if streams.Taken? && IsStale(s, g) {
      var s' := OnTakeStreams(s, c, g, streams, at);
      if s.generation in s.attempts {
        assert s'.attempts[s.generation] == s.attempts[s.generation];
      }
    } else {
      TakingKeepsInv(s, c, g, streams, at);
    }
  }

  /** Nothing is under way but closing: what is open is being closed, and every attempt is overtaken. */
  ghost predicate NothingUnderWay(s: State) {
    && (s.kind.Failed? || s.kind.Reconnecting?)
    && (forall h :: IsLive(s, h) ==> h in Closing(s))
    && (forall g :: g in s.attempts ==> IsStale(s, g))
  }

  lemma LeavingEndsEverything(s: State)
    requires PortsOk(s) && AttemptsKnown(s) && s.timers == {} && !s.kind.Stopped?
    ensures NothingUnderWay(Left(s))
  {
    var s' := Left(s);
    forall h | IsLive(s', h) ensures h in Closing(s') {
      assert IsLive(s, h);
    }
  }

  /** A loss leaves nothing under way, and what was open is being closed. */
  lemma LossEndsEverything(s: State, c: Config, at: Moment, retry: bool)
    requires Inv(s, c) && !s.kind.Stopped? && !s.kind.Reconnecting?
    ensures NothingUnderWay(HandleConnectionLoss(s, c, at, retry))
  {
    LeavingEndsEverything(s);
    RecordingEndsNothing(Left(s), c, at);
  }

  lemma RecordingEndsNothing(s: State, c: Config, at: Moment)
    requires NothingUnderWay(s)
    ensures NothingUnderWay(RecordFailedAttempt(s, c, at))
  {
    var s' := RecordFailedAttempt(s, c, at);
    RecordingOpensNothing(s, c, at);
    forall h | IsLive(s', h) ensures h in Closing(s') {
      assert IsLive(s, h);
    }
  }

  lemma RecordingOpensNothing(s: State, c: Config, at: Moment)
    ensures var s' := RecordFailedAttempt(s, c, at);
            && s'.devices == s.devices && s'.teardown == s.teardown && s'.draining == s.draining
            && s'.attempts == s.attempts && s'.generation == s.generation
            && (s'.kind.Failed? || s'.kind.Reconnecting?)
  {
  }

  /**
   * An overtaken attempt that finds its port without streams breaks no promise, but it ends whatever the
   * attempt that overtook it had reached.
   */
  lemma StaleLossEndsTheNewAttempt(s: State, c: Config, g: nat, at: Moment)
    requires Inv(s, c) && c.backoff.Valid() && Enabled(s, TakeStreams(g, Missing, at))
    requires IsStale(s, g) && !s.kind.Stopped? && !s.kind.Reconnecting?
    ensures Inv(After(s, c, TakeStreams(g, Missing, at)), c)
    ensures NothingUnderWay(After(s, c, TakeStreams(g, Missing, at)))
  {
    EndingKeepsInv(s, c, g);
    TakingKeepsInv(s, c, g, Missing, at);
    LossEndsEverything(EndAttempt(s, g), c, at, true);
  }

  /**
   * Anywhere else, an attempt that was overtaken only ends. A throwing open ends it too, and leaves the note
   * that a port was found.
   */
  lemma StaleAttemptOnlyEnds(s: State, c: Config, step: Step)
    requires IsContinuation(step) && Enabled(s, step) && IsStale(s, step.attempt)
    requires !step.OpenPort? && (step.TakeStreams? ==> step.streams.Throws?)
    ensures var ended := EndAttempt(s, step.attempt);
            After(s, c, step) ==
              if step.OpenThrows? then ended.(hasFoundPort := true, foundPortDetached := false) else ended
  {
  }
}
