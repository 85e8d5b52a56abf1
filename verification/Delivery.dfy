/**
 * The delivery of writes, over any number of tabs and terms of holding the port: what
 * `src/client/configuration-session.ts` wires together from `PendingWrites`, `AcceptedWrites`, the
 * write queue and the supervisor's `#write`, as a state machine over its steps.
 *
 * Messages travel on one first-in-first-out channel for each ordered pair of tabs, and any of them
 * may be lost. Which term a tab believes current, and which it believes ended, is left entirely open:
 * a step that needs to know takes any answer. So nothing here rests on the order of messages of
 * different senders, on clocks, or on terms ending when a tab thinks they do.
 */
module Delivery {
  import opened Basics
  import P = PendingWrites
  import A = AcceptedWrites

  /**
   * The four messages about a write; sender and recipient are those of the channel.
   * `question` is history: it numbers the questions a term has asked, and no step looks at it.
   */
  datatype Message =
    | Request(request: RequestId, term: TermId)
    | Ready(request: RequestId, term: TermId, question: int)
    | Approval(request: RequestId, term: TermId, approved: bool, question: int)
    | Result(request: RequestId, term: TermId, outcome: Outcome)

  /** How far the job at the head of the queue has got. */
  datatype Phase =
    | Next                                      // started, nothing decided
    | Asking(question: int)                     // write-ready sent, waiting for the issuer
    | Answered(approved: bool, question: int)   // the wait is over
    | Writing                                   // begun
    | Stalled                                   // begun; the caller has been told, the chunk is in flight

  datatype Running = Idle | Busy(write: Write, phase: Phase)

  /** One term of holding the port, in the tab that holds it. */
  datatype Term = Term(
    tab: ClientId,
    accepting: bool,            // the session still has this supervisor
    isOpen: bool,               // the connection is open
    accepted: A.Record<Write>,
    waiting: seq<Write>,        // jobs in the write queue that have not begun
    running: Running)

  datatype Begun = Begun(write: Write, term: TermId)

  datatype System = System(
    issued: set<Write>,
    pending: map<Write, P.Pending>,
    settled: map<Write, Outcome>,
    terms: map<TermId, Term>,
    channels: map<(ClientId, ClientId), seq<Message>>,
    log: seq<Begun>,            // history: every write begun at the device, in order
    asked: int,                 // history: how many questions have been asked
    gone: set<ClientId>)        // tabs that crashed or were closed

  const Start := System({}, map[], map[], map[], map[], [], 0, {})

  function Channel(s: System, from: ClientId, to: ClientId): seq<Message> {
    if (from, to) in s.channels then s.channels[(from, to)] else []
  }

  function WithChannel(s: System, from: ClientId, to: ClientId, c: seq<Message>): System {
    s.(channels := s.channels[(from, to) := c])
  }

  function Send(s: System, from: ClientId, to: ClientId, m: Message): System {
    WithChannel(s, from, to, Channel(s, from, to) + [m])
  }

  // --- The issuing tab --------------------------------------------------------------------------

  /** `#dispatchWrite`: every tab hears a request, and only the tab holding its term acts on it. */
  function HandOver(s: System, w: Write, h: P.Host): System
    requires w in s.pending
  {
    var p := s.pending[w];
    var s' := s.(pending := s.pending[w := P.HandOn(p, h)]);
    if P.MayHandOn(p, h) && h.currentTerm.value in s.terms
    then Send(s', w.origin, s.terms[h.currentTerm.value].tab, Request(w.request, h.currentTerm.value))
    else s'
  }

  function Settle(s: System, w: Write, o: Outcome): System {
    s.(pending := s.pending - {w}, settled := s.settled[w := o])
  }

  /** `write-ready` arrives: decided, marked and answered in one turn. */
  function AnswerQuestion(s: System, w: Write, t: TermId, q: int, to: ClientId): System {
    var yes := w in s.pending && P.MayBegin(s.pending[w], t);
    var s' := if yes then s.(pending := s.pending[w := P.LetBegin(s.pending[w], t)]) else s;
    Send(s', w.origin, to, Approval(w.request, t, yes, q))
  }

  /** `write-result` arrives. */
  function TakeResult(s: System, w: Write, t: TermId, o: Outcome, h: P.Host): System {
    if w !in s.pending || s.pending[w].addressedTerm != Some(t) then s
    else if o != NotConnected then Settle(s, w, o)
    else HandOver(s.(pending := s.pending[w := P.HandBack(s.pending[w])]), w, h)
  }

  // --- The tab holding the port -----------------------------------------------------------------

  function WithTerm(s: System, t: TermId, term: Term): System { s.(terms := s.terms[t := term]) }

  function Reply(s: System, t: TermId, w: Write, o: Outcome): System
    requires t in s.terms
  {
    Send(s, s.terms[t].tab, w.origin, Result(w.request, t, o))
  }

  /** `#performWrite`; `full` is the answer of `refusalOfWrite`. */
  function TakeRequest(s: System, w: Write, t: TermId, full: bool): System
    requires t in s.terms
  {
    var term := s.terms[t];
    if !term.accepted.Knows(w) && full then Reply(s, t, w, QueueFull)
    else
      match A.Verdict(term.accepted, w)
      case InProgress => s
      case Finished(o) => Reply(s, t, w, o)
      case New => WithTerm(s, t, term.(accepted := A.AfterAdmit(term.accepted, w), waiting := term.waiting + [w]))
  }

  /** `#takeApproval`: matched by the issuing tab, the request and the term - and by nothing else. */
  function TakeApproval(s: System, w: Write, t: TermId, yes: bool, q: int): System
    requires t in s.terms
  {
    var term := s.terms[t];
    if term.running.Busy? && term.running.write == w && term.running.phase.Asking?
    then WithTerm(s, t, term.(running := Busy(w, Answered(yes, q))))
    else s
  }

  /** The write's own end is recorded and reported; `left` is the rest of the queue. */
  function Report(s: System, t: TermId, w: Write, o: Outcome, waiting: seq<Write>, running: Running): System
    requires t in s.terms
  {
    var term := s.terms[t];
    var accepted := A.AfterFinish(term.accepted, w, o, A.MAX_REMEMBERED_FINISHED_WRITES);
    Reply(WithTerm(s, t, term.(accepted := accepted, waiting := waiting, running := running)), t, w, o)
  }

  function EndJob(s: System, t: TermId, o: Outcome): System
    requires t in s.terms && s.terms[t].running.Busy?
  {
    Report(s, t, s.terms[t].running.write, o, s.terms[t].waiting, Idle)
  }

  // --- Steps ------------------------------------------------------------------------------------

  datatype Step =
    // in the tab that issued `write`
    | Issue(write: Write, host: P.Host)
    | HandOn(write: Write, host: P.Host)          // `#dispatch`, for whatever reason it is called
    | Resend(write: Write, host: P.Host)          // `resendUnstarted`
    | TermEnded(write: Write, term: TermId)       // `handleTermEnded`
    | Expire(write: Write)                        // the deadline
    | Release(write: Write)                       // `failAll`
    // the bus
    | Deliver(from: ClientId, to: ClientId, host: P.Host, full: bool)
    | Lose(from: ClientId, to: ClientId, at: nat)
    // in the tab holding the port in `term`
    | StartTerm(term: TermId, tab: ClientId)
    | StopTerm(term: TermId)
    | Connection(term: TermId, isOpen: bool)
    | StartJob(term: TermId)
    | Withdraw(term: TermId, at: nat)             // the expiry of a waiting write
    | Late(term: TermId)                          // it had waited too long when it was started
    | Ask(term: TermId)
    | StopWaiting(term: TermId)                   // the deadline of the question, or `stop()`
    | Conclude(term: TermId)                      // what the end of the wait leads to
    | Stall(term: TermId)
    | Finish(term: TermId, outcome: Outcome)
    | Crash(tab: ClientId)

  predicate Alive(s: System, t: TermId) { t in s.terms && s.terms[t].tab !in s.gone }

  predicate InPhase(s: System, t: TermId) { Alive(s, t) && s.terms[t].running.Busy? }

  predicate Mine(s: System, w: Write) { w in s.pending && w.origin !in s.gone }

  /** Steps of the tab holding the port in `step.term`. */
  predicate IsTermStep(step: Step) {
    step.StartTerm? || step.StopTerm? || step.Connection? || step.StartJob? || step.Withdraw? || step.Late? || step.Ask?
    || step.StopWaiting? || step.Conclude? || step.Stall? || step.Finish?
  }

  predicate TermEnabled(s: System, step: Step)
    requires IsTermStep(step)
  {
    match step
    case StartTerm(t, tab) => t !in s.terms && tab !in s.gone
    case StopTerm(t) => Alive(s, t)
    case Connection(t, _) => Alive(s, t)
    case StartJob(t) => Alive(s, t) && s.terms[t].running.Idle? && s.terms[t].waiting != []
    case Withdraw(t, at) => Alive(s, t) && at < |s.terms[t].waiting|
    case Late(t) => InPhase(s, t) && s.terms[t].running.phase.Next?
    case Ask(t) => InPhase(s, t) && s.terms[t].running.phase.Next?
    case StopWaiting(t) => InPhase(s, t) && s.terms[t].running.phase.Asking?
    case Conclude(t) => InPhase(s, t) && s.terms[t].running.phase.Answered?
    case Stall(t) => InPhase(s, t) && s.terms[t].running.phase.Writing?
    case Finish(t, o) =>
      InPhase(s, t) && (s.terms[t].running.phase.Stalled? ||
                        (s.terms[t].running.phase.Writing? && !SaysNotBegun(o)))
  }

  predicate Enabled(s: System, step: Step) {
    match step
    case Issue(w, _) => w !in s.issued && w.origin !in s.gone
    case HandOn(w, _) => Mine(s, w)
    case Resend(w, _) => Mine(s, w)
    case TermEnded(w, t) => Mine(s, w) && s.pending[w].startedTerm == Some(t)
    case Expire(w) => Mine(s, w)
    case Release(w) => Mine(s, w)
    case Deliver(from, to, _, _) => to !in s.gone && Channel(s, from, to) != []
    case Lose(from, to, at) => at < |Channel(s, from, to)|
    case Crash(tab) => true
    case _ => TermEnabled(s, step)
  }

  /** What a message does where it arrives. */
  function Receive(s: System, from: ClientId, to: ClientId, m: Message, h: P.Host, full: bool): System {
    match m
    case Request(r, t) =>
      if t in s.terms && s.terms[t].tab == to && s.terms[t].accepting
      then TakeRequest(s, Write(from, r), t, full)
      else s
    case Ready(r, t, q) =>
      // Authorised only from the context that speaks for the term.
      if t in s.terms && s.terms[t].tab == from then AnswerQuestion(s, Write(to, r), t, q, from) else s
    case Approval(r, t, yes, q) =>
      if t in s.terms && s.terms[t].tab == to then TakeApproval(s, Write(from, r), t, yes, q) else s
    case Result(r, t, o) =>
      if t in s.terms && s.terms[t].tab == from then TakeResult(s, Write(to, r), t, o, h) else s
  }

  function TermAfter(s: System, step: Step): System
    requires IsTermStep(step) && TermEnabled(s, step)
  {
    match step
    case StartTerm(t, tab) => WithTerm(s, t, Term(tab, true, false, A.Empty(), [], Idle))
    case StopTerm(t) => WithTerm(s, t, s.terms[t].(accepting := false))
    case Connection(t, isOpen) => WithTerm(s, t, s.terms[t].(isOpen := isOpen))
    case StartJob(t) =>
      var term := s.terms[t];
      WithTerm(s, t, term.(waiting := term.waiting[1..], running := Busy(term.waiting[0], Next)))
    case Withdraw(t, at) =>
      var term := s.terms[t];
      Report(s, t, term.waiting[at], Timeout(false), term.waiting[..at] + term.waiting[at + 1..], term.running)
    case Late(t) => EndJob(s, t, Timeout(false))
    case Ask(t) =>
      var term := s.terms[t];
      var w := term.running.write;
      if !term.isOpen then EndJob(s, t, NotConnected)
      else
        var s' := WithTerm(s, t, term.(running := Busy(w, Asking(s.asked)))).(asked := s.asked + 1);
        Send(s', term.tab, w.origin, Ready(w.request, t, s.asked))
    case StopWaiting(t) =>
      var term := s.terms[t];
      WithTerm(s, t, term.(running := Busy(term.running.write, Answered(false, term.running.phase.question))))
    case Conclude(t) =>
      var term := s.terms[t];
      if !term.isOpen then EndJob(s, t, NotConnected)
      else if !term.running.phase.approved then EndJob(s, t, Timeout(false))
      else
        WithTerm(s, t, term.(running := Busy(term.running.write, Writing)))
          .(log := s.log + [Begun(term.running.write, t)])
    case Stall(t) =>
      var term := s.terms[t];
      Report(s, t, term.running.write, Timeout(true), term.waiting, Busy(term.running.write, Stalled))
    case Finish(t, o) =>
      if s.terms[t].running.phase.Stalled? then WithTerm(s, t, s.terms[t].(running := Idle))
      else EndJob(s, t, o)
  }

  function After(s: System, step: Step): System
    requires Enabled(s, step)
  {
    match step
    case Issue(w, h) =>
      HandOver(s.(issued := s.issued + {w}, pending := s.pending[w := P.FRESH]), w, h)
    case HandOn(w, h) => HandOver(s, w, h)
    case Resend(w, h) =>
      HandOver(s.(pending := s.pending[w := P.TakeBack(s.pending[w], h)]), w, h)
    case TermEnded(w, t) => Settle(s, w, OwnerLost)
    case Expire(w) => Settle(s, w, P.OnDeadline(s.pending[w]))
    case Release(w) => Settle(s, w, Released)
    case Deliver(from, to, h, full) =>
      var c := Channel(s, from, to);
      Receive(WithChannel(s, from, to, c[1..]), from, to, c[0], h, full)
    case Lose(from, to, at) =>
      var c := Channel(s, from, to);
      WithChannel(s, from, to, c[..at] + c[at + 1..])
    case Crash(tab) =>
      s.(gone := s.gone + {tab}, pending := map w | w in s.pending && w.origin != tab :: s.pending[w])
    case _ => TermAfter(s, step)
  }

  predicate IsAsking(s: System, t: TermId, w: Write) {
    t in s.terms && s.terms[t].running.Busy? && s.terms[t].running.write == w && s.terms[t].running.phase.Asking?
  }

  /**
   * The one thing the source does not check: a yes is taken for the question it answers, not for a
   * later question about the same write that the same term has asked since.
   */
  predicate TakesOwnAnswer(s: System, step: Step) {
    step.Deliver? && Channel(s, step.from, step.to) != [] ==>
      var m := Channel(s, step.from, step.to)[0];
      !(m.Approval? && m.approved && IsAsking(s, m.term, Write(step.from, m.request))
        && s.terms[m.term].running.phase.question != m.question)
  }
}
