/**
 * The delays of the retries, over whole runs: what a step of the connection automaton can do to the count of
 * losses and to the timer that the count sets. None of it needs a hypothesis on overtaken attempts.
 */
module ReconnectDelays {
  import opened Basics
  import opened Backoff
  import opened ConnectionAutomaton
  import PortSafety

  /** The delay on the armed timer is the one the losses call for. */
  predicate DelayOk(s: State, c: Config) {
    s.kind.Reconnecting? ==>
      s.counters.losses > 0 && s.kind.delayMs == DelayMs(s.counters.RetryIndex(), c.backoff, s.kind.draw)
  }

  /** The moment of a step at which a loss may be recorded. */
  function MomentOf(step: Step): Option<Moment> {
    match step
    case DeviceDisconnected(at) => Some(at)
    case WriteFails(_, at) => Some(at)
    case ListingEnds(_, _, at) => Some(at)
    case OpenThrows(_, _, at) => Some(at)
    case OpenAnswered(_, _, at) => Some(at)
    case OpenTimesOut(_, at) => Some(at)
    case TakeStreams(_, _, at) => Some(at)
    case ReadEnds(_, at) => Some(at)
    case _ => None
  }

  /** The last connection made has held for `stableAfterMs` by now. */
  predicate HasHeld(s: State, c: Config, at: Option<Moment>) {
    at.Some? && s.counters.connectedAt.Some? && at.value.now - s.counters.connectedAt.value >= c.stableAfterMs
  }

  /** The calls and events that start the count of losses over. */
  predicate IsAfresh(s: State, step: Step) {
    || step.Retry? || step.UseGrantedPort? || step.FollowDevice?
    || (step.DeviceConnected? && (s.kind.Failed? || s.kind.AwaitingPermission?))
  }

  /** The steps that may start the count over: those, and the loss of a connection that has held. */
  predicate MayStartOver(s: State, c: Config, step: Step) { IsAfresh(s, step) || HasHeld(s, c, MomentOf(step)) }

  /** A loss is recorded: counted, and followed by a retry with its delay while an attempt is left. */
  predicate IsLoss(s: State, c: Config, at: Option<Moment>, s': State) {
    && at.Some? && !s.kind.Reconnecting?
    && s'.counters == s.counters.AfterLoss(at.value.now, c.stableAfterMs)
    && (if s'.kind.Reconnecting? then
          && !s'.counters.HasExhausted(c.backoff)
          && s'.kind.delayMs == DelayMs(s'.counters.RetryIndex(), c.backoff, at.value.draw)
          && s'.kind.draw == at.value.draw
        else s'.counters.HasExhausted(c.backoff))
  }

  /** While a timer or the user is waited for, no attempt is current. */
  ghost predicate WaitsAlone(s: State) {
    && (forall g :: g in s.attempts ==> g <= s.generation)
    && (s.kind.Reconnecting? || s.kind.AwaitingPermission? ==> s.generation !in s.attempts)
  }

  lemma LossKeepsAlone(s: State, c: Config, at: Moment, retry: bool)
    requires WaitsAlone(s)
    ensures WaitsAlone(HandleConnectionLoss(s, c, at, retry))
  {
  }

  lemma LostKeepsAlone(s: State, c: Config, g: nat, at: Moment, retry: bool)
    requires WaitsAlone(s)
    ensures WaitsAlone(OnLost(s, c, g, at, retry))
    ensures WaitsAlone(HandleConnectionLoss(EndAttempt(s, g), c, at, retry))
  {
    LossKeepsAlone(EndAttempt(s, g), c, at, retry);
  }

  lemma ListingKeepsAlone(s: State, c: Config, g: nat, result: Listed, at: Moment)
    requires WaitsAlone(s) && g in s.attempts
    ensures WaitsAlone(OnListingEnds(s, c, g, result, at))
  {
    LostKeepsAlone(s, c, g, at, true);
  }

  lemma AnswerKeepsAlone(s: State, c: Config, g: nat, retryable: bool, at: Moment)
    requires WaitsAlone(s) && g in s.attempts && s.attempts[g].OpeningPort?
    ensures WaitsAlone(OnOpenAnswered(s, c, g, retryable, at))
  {
    LostKeepsAlone(s, c, g, at, retryable);
  }

  lemma StreamsKeepAlone(s: State, c: Config, g: nat, streams: Streams, at: Moment)
    requires WaitsAlone(s) && g in s.attempts && s.attempts[g].Opened?
    ensures WaitsAlone(OnTakeStreams(s, c, g, streams, at))
  {
    LostKeepsAlone(s, c, g, at, streams.Missing? || (streams.Throws? && streams.retryable));
  }

  lemma ThrowKeepsAlone(s: State, c: Config, g: nat, retryable: bool, at: Moment)
    requires WaitsAlone(s)
    ensures WaitsAlone(OnOpenThrows(s, c, g, retryable, at))
  {
    LostKeepsAlone(s.(hasFoundPort := true, foundPortDetached := false), c, g, at, retryable);
  }

  lemma ResumingKeepsAlone(s: State, c: Config, step: Step)
    requires WaitsAlone(s) && IsContinuation(step) && ContinuationEnabled(s, step)
    ensures WaitsAlone(Resume(s, c, step))
  {
    match step
    case TeardownAwaited(_) =>
    case ListingEnds(g, result, at) => ListingKeepsAlone(s, c, g, result, at);
    case OpenPort(_) =>
    case OpenThrows(g, retryable, at) => ThrowKeepsAlone(s, c, g, retryable, at);
    case OpenAnswered(g, retryable, at) => AnswerKeepsAlone(s, c, g, retryable, at);
    case OpenTimesOut(g, at) => LostKeepsAlone(s, c, g, at, true);
    case TakeStreams(g, streams, at) => StreamsKeepAlone(s, c, g, streams, at);
    case ReadEnds(g, at) => LostKeepsAlone(s, c, g, at, true);
  }

  /** Every step keeps it, whether or not an attempt is overtaken. */
  lemma StepKeepsAlone(s: State, c: Config, step: Step)
    requires WaitsAlone(s) && Enabled(s, step)
    ensures WaitsAlone(After(s, c, step))
  {
    if IsContinuation(step) {
      ResumingKeepsAlone(s, c, step);
    } else if step.DeviceDisconnected? {
      LossKeepsAlone(s.(foundPortDetached := true), c, step.at, true);
    } else if step.WriteFails? {
      LossKeepsAlone(s, c, step.at, true);
    } else {
      CallKeepsAlone(s, c, step);
    }
  }

  lemma ConnectKeepsAlone(s: State)
    requires forall g :: g in s.attempts ==> g <= s.generation
    ensures WaitsAlone(Connect(s.(counters := NO_ATTEMPTS, kind := Idle)))
    ensures !s.kind.AwaitingPermission? && !s.kind.Reconnecting? ==> WaitsAlone(Connect(s))
    ensures s.kind.Reconnecting? ==> WaitsAlone(Connect(s))
  {
  }

  lemma GrantKeepsAlone(s: State)
    requires WaitsAlone(s)
    ensures WaitsAlone(OnUseGrantedPort(s))
  {
    ConnectKeepsAlone(ClearTimer(s));
  }

  lemma DeviceChangeKeepsAlone(s: State, isSame: bool)
    requires WaitsAlone(s)
    ensures WaitsAlone(OnFollowDevice(s, isSame))
  {
    ConnectKeepsAlone(Left(ClearTimer(s)).(hasFoundPort := false, foundPortDetached := false));
  }

  lemma ConnectionKeepsAlone(s: State, c: Config)
    requires WaitsAlone(s)
    ensures WaitsAlone(OnDeviceConnected(s, c))
  {
    ConnectKeepsAlone(s.(foundPortDetached := false));
    ConnectKeepsAlone(ClearTimer(s.(foundPortDetached := false)));
  }

  lemma CallKeepsAlone(s: State, c: Config, step: Step)
    requires WaitsAlone(s) && !IsContinuation(step) && MomentOf(step).None? && Enabled(s, step)
    ensures WaitsAlone(After(s, c, step))
  {
    match step
    case Start(_) => ConnectKeepsAlone(s);
    case Retry => ConnectKeepsAlone(s);
    case UseGrantedPort => GrantKeepsAlone(s);
    case FollowDevice(isSame) => DeviceChangeKeepsAlone(s, isSame);
    case DeviceConnected => ConnectionKeepsAlone(s, c);
    case TimerFires(t) => ConnectKeepsAlone(s.(timers := s.timers - {t}));
    case Stop =>
    case DrainDone(_) =>
    case TeardownDone(_, _) =>
    case OpenSettles(_, _) =>
  }

  /** What a step can do to the count of losses and to the timer. */
  predicate Counts(s: State, c: Config, at: Option<Moment>, afresh: bool, s': State) {
    || (s'.counters.losses == s.counters.losses && s.counters.attempt <= s'.counters.attempt
        && (s'.kind == s.kind || !s'.kind.Reconnecting?))
    || (afresh && s'.counters.losses == 0 && !s'.kind.Reconnecting?)
    || IsLoss(s, c, at, s')
  }

  lemma RecordedLossCounts(s: State, s1: State, c: Config, at: Moment)
    requires s1.counters == s.counters && !s.kind.Reconnecting?
    ensures Counts(s, c, Some(at), false, RecordFailedAttempt(s1, c, at))
  {
  }

  lemma LossCounts(s: State, s1: State, c: Config, at: Moment, retry: bool)
    requires s1.counters == s.counters && s1.kind == s.kind
    ensures Counts(s, c, Some(at), false, HandleConnectionLoss(s1, c, at, retry))
  {
    if !s.kind.Stopped? && !s.kind.Reconnecting? {
      RecordedLossCounts(s, Left(s1), c, at);
    }
  }

  lemma ListingCounts(s: State, c: Config, g: nat, result: Listed, at: Moment)
    requires WaitsAlone(s) && g in s.attempts
    ensures Counts(s, c, Some(at), false, OnListingEnds(s, c, g, result, at))
  {
    LossCounts(s, EndAttempt(s, g), c, at, true);
    if !s.kind.Reconnecting? {
      RecordedLossCounts(s, EndAttempt(s, g), c, at);
    }
  }

  lemma LostCounts(s: State, s1: State, c: Config, g: nat, at: Moment, retry: bool)
    requires s1.counters == s.counters && s1.kind == s.kind && s1.generation == s.generation
    ensures Counts(s, c, Some(at), false, OnLost(s1, c, g, at, retry))
  {
    LossCounts(s, EndAttempt(s1, g), c, at, retry);
  }

  lemma AnswerCounts(s: State, c: Config, g: nat, retryable: bool, at: Moment)
    requires g in s.attempts && s.attempts[g].OpeningPort?
    ensures Counts(s, c, Some(at), false, OnOpenAnswered(s, c, g, retryable, at))
  {
    LossCounts(s, EndAttempt(s, g), c, at, retryable);
  }

  lemma StreamsCount(s: State, c: Config, g: nat, streams: Streams, at: Moment)
    requires g in s.attempts && s.attempts[g].Opened?
    ensures Counts(s, c, Some(at), false, OnTakeStreams(s, c, g, streams, at))
  {
    match streams
    case Taken =>
    case Missing => LossCounts(s, EndAttempt(s, g), c, at, true);
    case Throws(retryable) => LostCounts(s, s, c, g, at, retryable);
  }

  lemma ThrowCounts(s: State, c: Config, g: nat, retryable: bool, at: Moment)
    ensures Counts(s, c, Some(at), false, OnOpenThrows(s, c, g, retryable, at))
  {
    LossCounts(s, EndAttempt(s, g).(hasFoundPort := true, foundPortDetached := false), c, at, retryable);
  }

  lemma ResumingCounts(s: State, c: Config, step: Step)
    requires WaitsAlone(s) && IsContinuation(step) && ContinuationEnabled(s, step)
    ensures Counts(s, c, MomentOf(step), false, Resume(s, c, step))
  {
    match step
    case TeardownAwaited(_) =>
    case ListingEnds(g, result, at) => ListingCounts(s, c, g, result, at);
    case OpenPort(_) =>
    case OpenThrows(g, retryable, at) => ThrowCounts(s, c, g, retryable, at);
    case OpenAnswered(g, retryable, at) => AnswerCounts(s, c, g, retryable, at);
    case OpenTimesOut(g, at) => LostCounts(s, s, c, g, at, true);
    case TakeStreams(g, streams, at) => StreamsCount(s, c, g, streams, at);
    case ReadEnds(g, at) => LostCounts(s, s, c, g, at, true);
  }

  lemma DisconnectionCounts(s: State, c: Config, at: Moment)
    ensures Counts(s, c, Some(at), false, OnDeviceDisconnected(s, c, at))
  {
    var s1 := s.(foundPortDetached := true);
    LossCounts(s, s1, c, at, true);
    if !s.kind.Reconnecting? {
      RecordedLossCounts(s, s1, c, at);
    }
  }

  lemma GrantCounts(s: State, c: Config)
    ensures Counts(s, c, None, true, OnUseGrantedPort(s))
  {
  }

  lemma DeviceChangeCounts(s: State, c: Config, isSame: bool)
    ensures Counts(s, c, None, true, OnFollowDevice(s, isSame))
  {
  }

  lemma ConnectionCounts(s: State, c: Config)
    ensures Counts(s, c, None, s.kind.Failed? || s.kind.AwaitingPermission?, OnDeviceConnected(s, c))
  {
  }

  lemma CallCounts(s: State, c: Config, step: Step)
    requires !IsContinuation(step) && MomentOf(step).None? && Enabled(s, step)
    ensures Counts(s, c, None, IsAfresh(s, step), After(s, c, step))
  {
    match step
    case UseGrantedPort => GrantCounts(s, c);
    case FollowDevice(isSame) => DeviceChangeCounts(s, c, isSame);
    case DeviceConnected => ConnectionCounts(s, c);
    case Start(_) =>
    case Retry =>
    case TimerFires(_) =>
    case Stop =>
    case DrainDone(_) =>
    case TeardownDone(_, _) =>
    case OpenSettles(_, _) =>
  }

  lemma StepCounts(s: State, c: Config, step: Step)
    requires WaitsAlone(s) && Enabled(s, step)
    ensures Counts(s, c, MomentOf(step), IsAfresh(s, step), After(s, c, step))
  {
    if IsContinuation(step) {
      ResumingCounts(s, c, step);
    } else if step.DeviceDisconnected? {
      DisconnectionCounts(s, c, step.at);
    } else if step.WriteFails? {
      LossCounts(s, s, c, step.at, true);
    } else {
      CallCounts(s, c, step);
    }
  }

  /** The delay stays what the losses call for, and only a new loss arms a new one. */
  lemma CountingKeepsDelay(s: State, c: Config, at: Option<Moment>, afresh: bool, s': State)
    requires Counts(s, c, at, afresh, s') && DelayOk(s, c)
    ensures DelayOk(s', c)
  {
  }

  /** Nothing has been lost since the count started over, or no attempt is left. */
  predicate IsFresh(s: State, c: Config) { s.counters.losses == 0 || s.counters.HasExhausted(c.backoff) }

  /** The first loss after the count started over is retried at once. */
  lemma FirstLossIsImmediate(s: State, c: Config, at: Option<Moment>, afresh: bool, s': State)
    requires c.backoff.Valid() && Counts(s, c, at, afresh, s') && !s.kind.Reconnecting?
    requires IsFresh(s, c) || HasHeld(s, c, at)
    ensures s'.kind.Reconnecting? ==> s'.kind.delayMs == 0
    ensures IsFresh(s, c) && !s'.kind.Reconnecting? ==> IsFresh(s', c)
  {
  }

  lemma LossesGrow(s: State, c: Config, at: Option<Moment>, s': State)
    requires Counts(s, c, at, false, s') && !HasHeld(s, c, at)
    ensures s.counters.losses <= s'.counters.losses
  {
  }

  // --- Runs -------------------------------------------------------------------------------------

  lemma {:induction false} RunKeepsDelay(run: seq<State>, steps: seq<Step>, c: Config, n: nat)
    requires PortSafety.IsRun(run, steps, c) && n <= |steps|
    ensures WaitsAlone(run[n]) && DelayOk(run[n], c)
  {
    if n > 0 {
      RunKeepsDelay(run, steps, c, n - 1);
      var s, step := run[n - 1], steps[n - 1];
      StepKeepsAlone(s, c, step);
      StepCounts(s, c, step);
      CountingKeepsDelay(s, c, MomentOf(step), IsAfresh(s, step), run[n]);
    }
  }

  /** Every step of the sequence counts as a step may. */
  ghost predicate CountsAlong(run: seq<State>, steps: seq<Step>, c: Config) {
    && |run| == |steps| + 1
    && forall n :: 0 <= n < |steps| ==> Counts(run[n], c, MomentOf(steps[n]), IsAfresh(run[n], steps[n]), run[n + 1])
  }

  lemma RunCounts(run: seq<State>, steps: seq<Step>, c: Config)
    requires PortSafety.IsRun(run, steps, c)
    ensures CountsAlong(run, steps, c)
  {
    forall n | 0 <= n < |steps|
      ensures Counts(run[n], c, MomentOf(steps[n]), IsAfresh(run[n], steps[n]), run[n + 1])
    {
      RunKeepsDelay(run, steps, c, n);
      StepCounts(run[n], c, steps[n]);
    }
  }

  /** Every retry waits what its count of losses calls for, and never longer than the cap. */
  lemma DelaysAreBounded(run: seq<State>, steps: seq<Step>, c: Config, n: nat)
    requires PortSafety.IsRun(run, steps, c) && n <= |steps| && run[n].kind.Reconnecting?
    ensures run[n].kind.delayMs == DelayMs(run[n].counters.RetryIndex(), c.backoff, run[n].kind.draw)
    ensures 0 <= run[n].kind.delayMs <= c.backoff.maxDelayMs
  {
    RunKeepsDelay(run, steps, c, n);
    DelayIsBounded(run[n].counters.RetryIndex(), c.backoff, run[n].kind.draw);
  }

  lemma {:induction false} StaysFresh(run: seq<State>, steps: seq<Step>, c: Config, m: nat, n: nat)
    requires CountsAlong(run, steps, c) && c.backoff.Valid() && m <= n <= |steps| && run[m].counters.losses == 0
    requires forall k :: m <= k <= n ==> !run[k].kind.Reconnecting?
    ensures IsFresh(run[n], c)
    decreases n
  {
    if m < n {
      StaysFresh(run, steps, c, m, n - 1);
      FirstLossIsImmediate(run[n - 1], c, MomentOf(steps[n - 1]), IsAfresh(run[n - 1], steps[n - 1]), run[n]);
    }
  }

  /** The first retry after the count started over is made at once. */
  lemma FirstRetryIsImmediate(run: seq<State>, steps: seq<Step>, c: Config, m: nat, n: nat)
    requires PortSafety.IsRun(run, steps, c) && m < n <= |steps| && run[m].counters.losses == 0
    requires run[n].kind.Reconnecting? && forall k :: m <= k < n ==> !run[k].kind.Reconnecting?
    ensures run[n].kind.delayMs == 0
  {
    RunCounts(run, steps, c);
    RetriedAtOnce(run, steps, c, m, n);
  }

  lemma RetriedAtOnce(run: seq<State>, steps: seq<Step>, c: Config, m: nat, n: nat)
    requires CountsAlong(run, steps, c) && c.backoff.Valid() && m < n <= |steps| && run[m].counters.losses == 0
    requires run[n].kind.Reconnecting? && forall k :: m <= k < n ==> !run[k].kind.Reconnecting?
    ensures run[n].kind.delayMs == 0
  {
    StaysFresh(run, steps, c, m, n - 1);
    FirstLossIsImmediate(run[n - 1], c, MomentOf(steps[n - 1]), IsAfresh(run[n - 1], steps[n - 1]), run[n]);
  }

  /** So is the retry after a connection that held for `stableAfterMs`, whatever was lost before it. */
  lemma HeldConnectionIsRetriedAtOnce(run: seq<State>, steps: seq<Step>, c: Config, n: nat)
    requires PortSafety.IsRun(run, steps, c) && n < |steps| && HasHeld(run[n], c, MomentOf(steps[n]))
    requires run[n + 1].kind.Reconnecting? && !run[n].kind.Reconnecting?
    ensures run[n + 1].kind.delayMs == 0
  {
    RunCounts(run, steps, c);
    FirstLossIsImmediate(run[n], c, MomentOf(steps[n]), IsAfresh(run[n], steps[n]), run[n + 1]);
  }

  lemma {:induction false} LossesAddUp(run: seq<State>, steps: seq<Step>, c: Config, m: nat, n: nat)
    requires CountsAlong(run, steps, c) && m <= n <= |steps|
    requires forall k :: m <= k < n ==> !MayStartOver(run[k], c, steps[k])
    ensures run[m].counters.losses <= run[n].counters.losses
    decreases n
  {
    if m < n {
      LossesAddUp(run, steps, c, m, n - 1);
      LossesGrow(run[n - 1], c, MomentOf(steps[n - 1]), run[n]);
    }
  }

  /** Until the count starts over, a later retry never waits less, for one draw of the random source. */
  lemma DelaysGrow(run: seq<State>, steps: seq<Step>, c: Config, m: nat, n: nat)
    requires PortSafety.IsRun(run, steps, c) && m <= n <= |steps|
    requires forall k :: m <= k < n ==> !MayStartOver(run[k], c, steps[k])
    requires run[m].kind.Reconnecting? && run[n].kind.Reconnecting?
    requires run[m].kind.draw == run[n].kind.draw && 0.0 <= run[n].kind.draw < 1.0
    ensures run[m].kind.delayMs <= run[n].kind.delayMs
  {
    RunCounts(run, steps, c);
    LossesAddUp(run, steps, c, m, n);
    RunKeepsDelay(run, steps, c, m);
    RunKeepsDelay(run, steps, c, n);
    DelayGrows(run[m].counters.RetryIndex(), run[n].counters.RetryIndex(), c.backoff, run[n].kind.draw);
  }
}
