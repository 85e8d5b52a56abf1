/**
 * What the delivery protocol promises over every run in which each approval is taken for the question
 * it answers: no write is begun twice, a write its issuer was told was not written never is, and a
 * write it was told was written was begun, once.
 */
module DeliverySafety {
  import opened Basics
  import opened Delivery
  import P = PendingWrites
  import A = AcceptedWrites

  // --- What may lie in a channel ----------------------------------------------------------------

  /** The channel a write's requests and approvals travel on, and the one its questions and results do. */
  function Up(s: System, w: Write, t: TermId): seq<Message>
    requires t in s.terms
  {
    Channel(s, w.origin, s.terms[t].tab)
  }

  function Down(s: System, w: Write, t: TermId): seq<Message>
    requires t in s.terms
  {
    Channel(s, s.terms[t].tab, w.origin)
  }

  predicate IsRequest(m: Message, w: Write, t: TermId) { m.Request? && m.request == w.request && m.term == t }

  predicate IsReady(m: Message, w: Write, t: TermId, q: int) { m == Ready(w.request, t, q) }

  predicate IsYes(m: Message, w: Write, t: TermId, q: int) { m == Approval(w.request, t, true, q) }

  predicate IsUnbegun(m: Message, w: Write, t: TermId) {
    m.Result? && m.request == w.request && m.term == t && SaysNotBegun(m.outcome)
  }

  ghost predicate NoRequest(c: seq<Message>, w: Write, t: TermId) {
    forall i :: 0 <= i < |c| ==> !IsRequest(c[i], w, t)
  }

  ghost predicate NoUnbegun(c: seq<Message>, w: Write, t: TermId) {
    forall i :: 0 <= i < |c| ==> !IsUnbegun(c[i], w, t)
  }

  ghost predicate SaysYes(c: seq<Message>, w: Write, t: TermId, q: int) {
    exists i :: 0 <= i < |c| && IsYes(c[i], w, t, q)
  }

  /** No request of the write stands behind a yes to question `q`. */
  ghost predicate NoRequestBehindYes(c: seq<Message>, w: Write, t: TermId, q: int) {
    forall i, j :: 0 <= i < j < |c| && IsYes(c[i], w, t, q) ==> !IsRequest(c[j], w, t)
  }

  /** No word that the write was not begun stands behind question `q`. */
  ghost predicate NoUnbegunBehindReady(c: seq<Message>, w: Write, t: TermId, q: int) {
    forall i, j :: 0 <= i < j < |c| && IsReady(c[i], w, t, q) ==> !IsUnbegun(c[j], w, t)
  }

  // --- The invariant ----------------------------------------------------------------------------

  ghost predicate EverBegun(log: seq<Begun>, w: Write) {
    exists i :: 0 <= i < |log| && log[i].write == w
  }

  ghost predicate InLog(s: System, w: Write, t: TermId) { Begun(w, t) in s.log }

  /** A yes to the question the term is waiting on is on its way, or has just arrived. */
  ghost predicate Committed(s: System, w: Write, t: TermId)
    requires t in s.terms
  {
    var r := s.terms[t].running;
    r.Busy? && r.write == w &&
    ((r.phase.Asking? && SaysYes(Up(s, w, t), w, t, r.phase.question)) || (r.phase.Answered? && r.phase.approved))
  }

  /** The write has been begun in this term, or may be begun there by what is already on its way. */
  ghost predicate Hot(s: System, w: Write, t: TermId)
    requires t in s.terms
  {
    InLog(s, w, t) || Committed(s, w, t)
  }

  /** Its issuer counts a hot write as begun by that term, and nobody has been told otherwise. */
  ghost predicate CountedAsBegun(s: System, w: Write, t: TermId)
    requires t in s.terms
  {
    && (w in s.pending ==> s.pending[w].startedTerm == Some(t))
    && (w in s.settled ==> !PromisesUnwritten(s.settled[w]))
    && NoUnbegun(Down(s, w, t), w, t)
  }

  /** What each phase of the running job means for one write. */
  ghost predicate RunningOk(s: System, w: Write, t: TermId)
    requires t in s.terms
  {
    var term := s.terms[t];
    var up, down := Up(s, w, t), Down(s, w, t);
    (term.running.Busy? && term.running.write == w ==>
      match term.running.phase
      case Next => !InLog(s, w, t)
      case Asking(q) =>
        && !InLog(s, w, t)
        && q < s.asked
        && NoRequestBehindYes(up, w, t, q)
        && NoUnbegunBehindReady(down, w, t, q)
      case Answered(yes, _) => !InLog(s, w, t) && (yes ==> NoRequest(up, w, t))
      case Writing => InLog(s, w, t)
      case Stalled => InLog(s, w, t))
  }

  /** Each write has at most one job that has not ended, and then the record says it is in progress. */
  ghost predicate JobsOk(s: System, w: Write, t: TermId)
    requires t in s.terms
  {
    var term := s.terms[t];
    && (w in term.waiting ==> w in term.accepted.inProgress && !InLog(s, w, t))
    && (term.running.Busy? && term.running.write == w && !term.running.phase.Stalled? ==>
          w in term.accepted.inProgress && w !in term.waiting)
  }

  /** Nobody knows of a write that has not been issued. */
  ghost predicate KnownOk(s: System, w: Write, t: TermId)
    requires t in s.terms
  {
    var term := s.terms[t];
    w !in s.issued ==>
      && NoRequest(Up(s, w, t), w, t)
      && w !in term.waiting
      && !(term.running.Busy? && term.running.write == w)
  }

  ghost predicate WrittenOk(s: System, w: Write, t: TermId)
    requires t in s.terms
  {
    && (w in s.terms[t].accepted.finished && s.terms[t].accepted.finished[w] == Written ==> InLog(s, w, t))
    && (Result(w.request, t, Written) in Down(s, w, t) ==> InLog(s, w, t))
  }

  ghost predicate Local(s: System, w: Write, t: TermId)
    requires t in s.terms
  {
    && (Hot(s, w, t) ==> CountedAsBegun(s, w, t))
    && (InLog(s, w, t) ==> NoRequest(Up(s, w, t), w, t))
    && RunningOk(s, w, t)
    && JobsOk(s, w, t)
    && KnownOk(s, w, t)
    && WrittenOk(s, w, t)
  }

  ghost predicate IssuerOk(s: System, w: Write) {
    && (w in s.pending ==> s.pending[w].Valid() && w in s.issued && w !in s.settled)
    && (w in s.settled ==> w in s.issued)
    && (w in s.settled && s.settled[w] == Written ==> EverBegun(s.log, w))
  }

  /** A write is hot in one term at most. */
  ghost predicate Exclusive(s: System, w: Write, t: TermId, t': TermId)
    requires t in s.terms && t' in s.terms
  {
    Hot(s, w, t) && Hot(s, w, t') ==> t == t'
  }

  ghost predicate LogOk(s: System) {
    && (forall i :: 0 <= i < |s.log| ==> s.log[i].term in s.terms && s.log[i].write in s.issued)
    && (forall i, j :: 0 <= i < j < |s.log| ==> s.log[i].write != s.log[j].write)
  }

  /** Questions are numbered as they are asked, so a message names only numbers already used. */
  ghost predicate MessagesOk(s: System) {
    forall c, i :: c in s.channels && 0 <= i < |s.channels[c]| ==>
      && s.channels[c][i].term in s.terms
      && (s.channels[c][i].Ready? || s.channels[c][i].Approval? ==> s.channels[c][i].question < s.asked)
  }

  ghost predicate WaitingOk(s: System) {
    forall t :: t in s.terms ==> NoDuplicates(s.terms[t].waiting)
  }

  ghost predicate Inv(s: System) {
    && LogOk(s) && MessagesOk(s) && WaitingOk(s)
    && (forall w :: IssuerOk(s, w))
    && (forall w, t :: t in s.terms ==> Local(s, w, t))
    && (forall w, t, t' :: t in s.terms && t' in s.terms ==> Exclusive(s, w, t, t'))
  }

  // --- Messages ---------------------------------------------------------------------------------

  /** A term that has begun a write, or may, is the only one; a pending write shows which it is. */
  lemma HotIsStarted(s: System, w: Write, t: TermId)
    requires Inv(s) && w in s.pending && t in s.terms && Hot(s, w, t)
    ensures s.pending[w].startedTerm == s.pending[w].addressedTerm == Some(t)
  {
    assert Local(s, w, t) && IssuerOk(s, w);
  }

  /** Losing any message loses nothing of the invariant. */
  lemma LossKeepsInv(s: System, from: ClientId, to: ClientId, at: nat)
    requires Inv(s) && at < |Channel(s, from, to)|
    ensures var c := Channel(s, from, to); Inv(WithChannel(s, from, to, c[..at] + c[at + 1..]))
  {
    var c := Channel(s, from, to);
    var s' := WithChannel(s, from, to, c[..at] + c[at + 1..]);
    forall w, t | t in s'.terms ensures Local(s', w, t) && (Hot(s', w, t) ==> Hot(s, w, t)) {
      LossKeepsLocal(s, from, to, at, w, t);
    }
    forall w, t, t' | t in s'.terms && t' in s'.terms ensures Exclusive(s', w, t, t') {
      LossKeepsLocal(s, from, to, at, w, t);
      LossKeepsLocal(s, from, to, at, w, t');
      assert Exclusive(s, w, t, t');
    }
    forall w ensures IssuerOk(s', w) {
      assert IssuerOk(s, w);
    }
  }

  lemma LossKeepsLocal(s: System, from: ClientId, to: ClientId, at: nat, w: Write, t: TermId)
    requires t in s.terms && Local(s, w, t) && at < |Channel(s, from, to)|
    ensures var c := Channel(s, from, to);
            var s' := WithChannel(s, from, to, c[..at] + c[at + 1..]);
            Local(s', w, t) && (Hot(s', w, t) ==> Hot(s, w, t))
  {
    var c := Channel(s, from, to);
    var c' := c[..at] + c[at + 1..];
    var s' := WithChannel(s, from, to, c');
    forall i | 0 <= i < |c'| ensures c'[i] == c[if i < at then i else i + 1] {
    }
  }

  /** `s'` differs from `s` by one message appended to one channel, in the state that message allows. */
  ghost predicate MaySend(s: System, from: ClientId, to: ClientId, m: Message)
  {
    && m.term in s.terms
    && match m
       case Request(r, t) =>
         to == s.terms[t].tab && Write(from, r) in s.issued && !Hot(s, Write(from, r), t)
       case Ready(r, t, q) => from == s.terms[t].tab && q < s.asked
       case Approval(r, t, yes, q) =>
         && to == s.terms[t].tab && q < s.asked
         && (yes ==> var w := Write(from, r);
               && w in s.pending && s.pending[w].startedTerm == Some(t)
               && (IsAsking(s, t, w) && s.terms[t].running.phase.question == q ==> NoUnbegun(Down(s, w, t), w, t)))
       case Result(r, t, o) =>
         var w := Write(to, r);
         && from == s.terms[t].tab
         && (SaysNotBegun(o) ==> !Hot(s, w, t) && !IsAsking(s, t, w))
         && (o == Written ==> InLog(s, w, t))
  }

  /** Sending a yes is what makes a write hot. */
  ghost predicate MakesHot(s: System, from: ClientId, to: ClientId, m: Message, w: Write, t: TermId)
    requires t in s.terms
  {
    m.Approval? && m.approved && m.term == t && w == Write(from, m.request)
  }

  lemma SendKeepsHot(s: System, from: ClientId, to: ClientId, m: Message, w: Write, t: TermId)
    requires t in s.terms
    ensures Hot(s, w, t) ==> Hot(Send(s, from, to, m), w, t)
    ensures Hot(Send(s, from, to, m), w, t) ==> Hot(s, w, t) || MakesHot(s, from, to, m, w, t)
  {
    var c := Channel(s, from, to);
    assert forall i :: 0 <= i < |c| ==> (c + [m])[i] == c[i];
    assert (c + [m])[|c|] == m;
  }

  lemma SendKeepsRunning(s: System, from: ClientId, to: ClientId, m: Message, w: Write, t: TermId)
    requires t in s.terms && Local(s, w, t) && MaySend(s, from, to, m)
    ensures RunningOk(Send(s, from, to, m), w, t)
  {
    var c := Channel(s, from, to);
    assert forall i :: 0 <= i < |c| ==> (c + [m])[i] == c[i];
    assert (c + [m])[|c|] == m;
  }

  lemma SendKeepsLocal(s: System, from: ClientId, to: ClientId, m: Message, w: Write, t: TermId)
    requires t in s.terms && Local(s, w, t) && IssuerOk(s, w) && MaySend(s, from, to, m)
    ensures Local(Send(s, from, to, m), w, t)
    ensures Hot(Send(s, from, to, m), w, t) ==> Hot(s, w, t) || MakesHot(s, from, to, m, w, t)
  {
    var c := Channel(s, from, to);
    var s' := Send(s, from, to, m);
    SendKeepsHot(s, from, to, m, w, t);
    SendKeepsRunning(s, from, to, m, w, t);
    assert forall i :: 0 <= i < |c| ==> (c + [m])[i] == c[i];
    assert (c + [m])[|c|] == m;
  }

  lemma SendKeepsInv(s: System, from: ClientId, to: ClientId, m: Message)
    requires Inv(s) && MaySend(s, from, to, m)
    ensures Inv(Send(s, from, to, m))
  {
    var s' := Send(s, from, to, m);
    forall w ensures IssuerOk(s', w) {
      assert IssuerOk(s, w);
    }
    forall w, t | t in s'.terms ensures Local(s', w, t) {
      assert Local(s, w, t) && IssuerOk(s, w);
      SendKeepsLocal(s, from, to, m, w, t);
    }
    forall w, t, t' | t in s'.terms && t' in s'.terms ensures Exclusive(s', w, t, t') {
      SendKeepsExclusive(s, from, to, m, w, t, t');
    }
  }

  lemma SendKeepsExclusive(s: System, from: ClientId, to: ClientId, m: Message, w: Write, t: TermId, t': TermId)
    requires Inv(s) && MaySend(s, from, to, m) && t in s.terms && t' in s.terms
    ensures Exclusive(Send(s, from, to, m), w, t, t')
  {
    assert Local(s, w, t) && Local(s, w, t') && IssuerOk(s, w) && Exclusive(s, w, t, t');
    SendKeepsLocal(s, from, to, m, w, t);
    SendKeepsLocal(s, from, to, m, w, t');
  }

  // --- The issuing tab --------------------------------------------------------------------------

  /** Changing a pending write keeps the invariant as long as a hot write stays started. */
  lemma PendingKeepsInv(s: System, w0: Write, p: P.Pending)
    requires Inv(s) && w0 in s.pending && p.Valid()
    requires forall t :: t in s.terms && Hot(s, w0, t) ==> p.startedTerm == Some(t)
    ensures Inv(s.(pending := s.pending[w0 := p]))
  {
    var s' := s.(pending := s.pending[w0 := p]);
    assert IssuerOk(s, w0);
    SameMessagesKeepInv(s, s');
  }

  /** A step of an issuer that changes neither messages, terms nor log. */
  lemma SameMessagesKeepInv(s: System, s': System)
    requires Inv(s)
    requires s'.terms == s.terms && s'.channels == s.channels && s'.log == s.log && s'.asked == s.asked
    requires s.issued <= s'.issued
    requires forall w :: w in s'.pending && !(w in s.pending && s.pending[w] == s'.pending[w]) ==>
               && s'.pending[w].Valid() && w in s'.issued && w !in s'.settled
               && forall t :: t in s.terms && Hot(s, w, t) ==> s'.pending[w].startedTerm == Some(t)
    requires forall w :: w in s'.settled && !(w in s.settled && s.settled[w] == s'.settled[w]) ==>
               && w in s'.issued && w !in s'.pending
               && (s'.settled[w] == Written ==> EverBegun(s.log, w))
               && (PromisesUnwritten(s'.settled[w]) ==> forall t :: t in s.terms ==> !Hot(s, w, t))
    ensures Inv(s')
  {
    forall w ensures IssuerOk(s', w) {
      assert IssuerOk(s, w);
    }
    forall w, t | t in s'.terms ensures Local(s', w, t) && (Hot(s', w, t) <==> Hot(s, w, t)) {
      assert Local(s, w, t) && IssuerOk(s, w);
      assert Hot(s', w, t) <==> Hot(s, w, t);
    }
    forall w, t, t' | t in s'.terms && t' in s'.terms ensures Exclusive(s', w, t, t') {
      assert Exclusive(s, w, t, t');
      assert Hot(s', w, t) <==> Hot(s, w, t);
      assert Hot(s', w, t') <==> Hot(s, w, t');
    }
  }

  /** Nothing is known of a new write, so it is cold everywhere. */
  lemma IssueKeepsInv(s: System, w0: Write)
    requires Inv(s) && w0 !in s.issued
    ensures Inv(s.(issued := s.issued + {w0}, pending := s.pending[w0 := P.FRESH]))
  {
    forall t | t in s.terms ensures !Hot(s, w0, t) {
      assert Local(s, w0, t);
    }
    assert IssuerOk(s, w0);
    SameMessagesKeepInv(s, s.(issued := s.issued + {w0}, pending := s.pending[w0 := P.FRESH]));
  }

  lemma SettleKeepsInv(s: System, w0: Write, o: Outcome)
    requires Inv(s) && w0 in s.pending
    requires o == Written ==> EverBegun(s.log, w0)
    requires PromisesUnwritten(o) ==> forall t :: t in s.terms ==> !Hot(s, w0, t)
    ensures Inv(Settle(s, w0, o))
  {
    assert IssuerOk(s, w0);
    SameMessagesKeepInv(s, Settle(s, w0, o));
  }

  /** Handing on a write that is not hot sends a request nothing hot forbids. */
  lemma HandOverKeepsInv(s: System, w0: Write, h: P.Host)
    requires Inv(s) && w0 in s.pending
    ensures Inv(HandOver(s, w0, h))
  {
    var p := s.pending[w0];
    assert IssuerOk(s, w0);
    P.HandOnIsSafe(p, h);
    forall t | t in s.terms && Hot(s, w0, t) ensures P.HandOn(p, h).startedTerm == Some(t) {
      HotIsStarted(s, w0, t);
    }
    PendingKeepsInv(s, w0, P.HandOn(p, h));
    if P.MayHandOn(p, h) && h.currentTerm.value in s.terms {
      var t := h.currentTerm.value;
      var s' := s.(pending := s.pending[w0 := P.HandOn(p, h)]);
      assert IssuerOk(s', w0);
      if Hot(s', w0, t) {
        HotIsStarted(s', w0, t);
        assert false;
      }
      SendKeepsInv(s', w0.origin, s.terms[t].tab, Request(w0.request, t));
    }
  }

  lemma TakeBackKeepsInv(s: System, w0: Write, h: P.Host)
    requires Inv(s) && w0 in s.pending
    ensures Inv(s.(pending := s.pending[w0 := P.TakeBack(s.pending[w0], h)]))
  {
    assert IssuerOk(s, w0);
    forall t | t in s.terms && Hot(s, w0, t) ensures P.TakeBack(s.pending[w0], h).startedTerm == Some(t) {
      HotIsStarted(s, w0, t);
    }
    PendingKeepsInv(s, w0, P.TakeBack(s.pending[w0], h));
  }

  /** A deadline says `started: false` only of a write that is not hot anywhere. */
  lemma ExpireKeepsInv(s: System, w0: Write)
    requires Inv(s) && w0 in s.pending
    ensures Inv(Settle(s, w0, P.OnDeadline(s.pending[w0])))
  {
    forall t | t in s.terms && Hot(s, w0, t) ensures s.pending[w0].startedTerm == Some(t) {
      HotIsStarted(s, w0, t);
    }
    SettleKeepsInv(s, w0, P.OnDeadline(s.pending[w0]));
  }

  lemma CrashKeepsInv(s: System, tab: ClientId)
    requires Inv(s)
    ensures Inv(s.(gone := s.gone + {tab}, pending := map w | w in s.pending && w.origin != tab :: s.pending[w]))
  {
    var left := map w | w in s.pending && w.origin != tab :: s.pending[w];
    SameMessagesKeepInv(s, s.(gone := s.gone + {tab}, pending := left));
  }

  lemma AnswerQuestionKeepsInv(s: System, w0: Write, t: TermId, q: int)
    requires Inv(s) && t in s.terms && q < s.asked
    requires IsAsking(s, t, w0) && s.terms[t].running.phase.question == q ==> NoUnbegun(Down(s, w0, t), w0, t)
    ensures Inv(AnswerQuestion(s, w0, t, q, s.terms[t].tab))
  {
    var yes := w0 in s.pending && P.MayBegin(s.pending[w0], t);
    var s' := if yes then s.(pending := s.pending[w0 := P.LetBegin(s.pending[w0], t)]) else s;
    if yes {
      assert IssuerOk(s, w0);
      forall t' | t' in s.terms && Hot(s, w0, t') ensures P.LetBegin(s.pending[w0], t).startedTerm == Some(t') {
        HotIsStarted(s, w0, t');
      }
      PendingKeepsInv(s, w0, P.LetBegin(s.pending[w0], t));
    }
    SendKeepsInv(s', w0.origin, s.terms[t].tab, Approval(w0.request, t, yes, q));
  }

  /** A word that the write was not begun is only ever heard of a write that is not hot. */
  lemma TakeResultKeepsInv(s: System, w0: Write, t: TermId, o: Outcome, h: P.Host)
    requires Inv(s) && t in s.terms
    requires Hot(s, w0, t) ==> !SaysNotBegun(o)
    requires o == Written ==> InLog(s, w0, t)
    ensures Inv(TakeResult(s, w0, t, o, h))
  {
    if w0 in s.pending && s.pending[w0].addressedTerm == Some(t) {
      assert IssuerOk(s, w0);
      forall t' | t' in s.terms && Hot(s, w0, t') ensures t' == t && !SaysNotBegun(o) {
        HotIsStarted(s, w0, t');
      }
      if o != NotConnected {
        if o == Written {
          var i :| 0 <= i < |s.log| && s.log[i] == Begun(w0, t);
        }
        SettleKeepsInv(s, w0, o);
      } else {
        PendingKeepsInv(s, w0, P.HandBack(s.pending[w0]));
        HandOverKeepsInv(s.(pending := s.pending[w0 := P.HandBack(s.pending[w0])]), w0, h);
      }
    }
  }

  // --- The tab holding the port -----------------------------------------------------------------

  /** A step of one term that sends nothing and begins nothing is judged by that term alone. */
  lemma TermKeepsInv(s: System, t0: TermId, term: Term, asked: int)
    requires Inv(s) && t0 in s.terms && term.tab == s.terms[t0].tab && s.asked <= asked
    requires NoDuplicates(term.waiting)
    requires var s' := WithTerm(s, t0, term).(asked := asked);
             forall w :: Local(s', w, t0) && (Hot(s', w, t0) ==> Hot(s, w, t0))
    ensures Inv(WithTerm(s, t0, term).(asked := asked))
  {
    var s' := WithTerm(s, t0, term).(asked := asked);
    forall w ensures IssuerOk(s', w) {
      assert IssuerOk(s, w);
    }
    forall w, t | t in s'.terms ensures Local(s', w, t) && (Hot(s', w, t) ==> Hot(s, w, t)) {
      assert Local(s, w, t);
      assert t != t0 ==> (Hot(s', w, t) <==> Hot(s, w, t));
    }
    forall w, t, t' | t in s'.terms && t' in s'.terms ensures Exclusive(s', w, t, t') {
      assert Exclusive(s, w, t, t');
    }
  }

  /** `StopTerm` and `Connection`: nothing the invariant speaks of changes. */
  lemma FlagsKeepInv(s: System, t0: TermId, accepting: bool, isOpen: bool)
    requires Inv(s) && t0 in s.terms
    ensures Inv(WithTerm(s, t0, s.terms[t0].(accepting := accepting, isOpen := isOpen)))
  {
    var term := s.terms[t0].(accepting := accepting, isOpen := isOpen);
    var s' := WithTerm(s, t0, term).(asked := s.asked);
    forall w ensures Local(s', w, t0) && (Hot(s', w, t0) ==> Hot(s, w, t0)) {
      assert Local(s, w, t0);
    }
    TermKeepsInv(s, t0, term, s.asked);
    assert s' == WithTerm(s, t0, term);
  }

  lemma StartTermKeepsInv(s: System, t0: TermId, tab: ClientId)
    requires Inv(s) && t0 !in s.terms
    ensures Inv(WithTerm(s, t0, Term(tab, true, false, A.Empty(), [], Idle)))
  {
    var s' := WithTerm(s, t0, Term(tab, true, false, A.Empty(), [], Idle));
    forall w ensures IssuerOk(s', w) {
      assert IssuerOk(s, w);
    }
    forall w, t | t in s'.terms ensures Local(s', w, t) && (Hot(s', w, t) ==> t in s.terms && Hot(s, w, t)) {
      if t == t0 {
        assert !InLog(s', w, t0);
        assert forall i :: 0 <= i < |Up(s', w, t0)| ==> Up(s', w, t0)[i].term in s.terms;
        assert forall i :: 0 <= i < |Down(s', w, t0)| ==> Down(s', w, t0)[i].term in s.terms;
      } else {
        assert Local(s, w, t);
        assert Hot(s', w, t) <==> Hot(s, w, t);
      }
    }
    forall w, t, t' | t in s'.terms && t' in s'.terms ensures Exclusive(s', w, t, t') {
      if t != t0 && t' != t0 {
        assert Exclusive(s, w, t, t');
      }
    }
  }

  lemma AdmitKeepsInv(s: System, w0: Write, t0: TermId)
    requires Inv(s) && t0 in s.terms && w0 in s.issued && !s.terms[t0].accepted.Knows(w0) && !InLog(s, w0, t0)
    ensures var term := s.terms[t0];
            Inv(WithTerm(s, t0, term.(accepted := A.AfterAdmit(term.accepted, w0), waiting := term.waiting + [w0])))
  {
    var term := s.terms[t0];
    var term' := term.(accepted := A.AfterAdmit(term.accepted, w0), waiting := term.waiting + [w0]);
    var s' := WithTerm(s, t0, term').(asked := s.asked);
    assert Local(s, w0, t0);
    assert w0 !in term.waiting;
    forall w ensures Local(s', w, t0) && (Hot(s', w, t0) ==> Hot(s, w, t0)) {
      assert Local(s, w, t0);
      assert w != w0 ==> (w in term'.waiting <==> w in term.waiting);
    }
    TermKeepsInv(s, t0, term', s.asked);
    assert s' == WithTerm(s, t0, term');
  }

  lemma TakeRequestKeepsInv(s: System, w0: Write, t0: TermId, full: bool)
    requires Inv(s) && t0 in s.terms && w0 in s.issued && !InLog(s, w0, t0)
    ensures Inv(TakeRequest(s, w0, t0, full))
  {
    var term := s.terms[t0];
    assert Local(s, w0, t0);
    if term.accepted.Knows(w0) {
      if w0 !in term.accepted.inProgress {
        SendKeepsInv(s, term.tab, w0.origin, Result(w0.request, t0, term.accepted.finished[w0]));
      }
    } else if full {
      SendKeepsInv(s, term.tab, w0.origin, Result(w0.request, t0, QueueFull));
    } else {
      AdmitKeepsInv(s, w0, t0);
    }
  }

  /** Taking a yes for the question it answers: the write is hot already. */
  lemma TakeApprovalKeepsInv(s: System, w0: Write, t0: TermId, yes: bool, q: int)
    requires Inv(s) && t0 in s.terms
    requires yes && IsAsking(s, t0, w0) ==>
               && NoRequest(Up(s, w0, t0), w0, t0)
               && CountedAsBegun(s, w0, t0)
               && forall t :: t in s.terms && Hot(s, w0, t) ==> t == t0
    ensures Inv(TakeApproval(s, w0, t0, yes, q))
  {
    if IsAsking(s, t0, w0) {
      var term' := s.terms[t0].(running := Busy(w0, Answered(yes, q)));
      var s' := WithTerm(s, t0, term');
      forall w ensures IssuerOk(s', w) {
        assert IssuerOk(s, w);
      }
      forall w, t | t in s'.terms
        ensures Local(s', w, t) && (Hot(s', w, t) ==> Hot(s, w, t) || (yes && w == w0 && t == t0))
      {
        assert Local(s, w, t);
        assert t != t0 ==> (Hot(s', w, t) <==> Hot(s, w, t));
      }
      forall w, t, t' | t in s'.terms && t' in s'.terms ensures Exclusive(s', w, t, t') {
        assert Exclusive(s, w, t, t');
      }
    }
  }

  /** A job that moves to a phase in which no yes counts. */
  lemma PhaseKeepsInv(s: System, t0: TermId, phase: Phase)
    requires Inv(s) && t0 in s.terms && s.terms[t0].running.Busy?
    requires s.terms[t0].running.phase.Asking? && phase.Answered? && !phase.approved
    ensures Inv(WithTerm(s, t0, s.terms[t0].(running := Busy(s.terms[t0].running.write, phase))))
  {
    var term' := s.terms[t0].(running := Busy(s.terms[t0].running.write, phase));
    var s' := WithTerm(s, t0, term').(asked := s.asked);
    forall w ensures Local(s', w, t0) && (Hot(s', w, t0) ==> Hot(s, w, t0)) {
      assert Local(s, w, t0);
    }
    TermKeepsInv(s, t0, term', s.asked);
    assert s' == WithTerm(s, t0, term');
  }

  lemma StartJobKeepsInv(s: System, t0: TermId)
    requires Inv(s) && t0 in s.terms && s.terms[t0].running.Idle? && s.terms[t0].waiting != []
    ensures var term := s.terms[t0];
            Inv(WithTerm(s, t0, term.(waiting := term.waiting[1..], running := Busy(term.waiting[0], Next))))
  {
    var term := s.terms[t0];
    var term' := term.(waiting := term.waiting[1..], running := Busy(term.waiting[0], Next));
    var s' := WithTerm(s, t0, term').(asked := s.asked);
    assert NoDuplicates(term.waiting);
    forall w ensures Local(s', w, t0) && (Hot(s', w, t0) ==> Hot(s, w, t0)) {
      assert Local(s, w, t0);
      assert w in term'.waiting ==> w in term.waiting;
      assert term.waiting[0] in term.waiting && term.waiting[0] !in term'.waiting;
    }
    TermKeepsInv(s, t0, term', s.asked);
    assert s' == WithTerm(s, t0, term');
  }

  /** A new question: no message names its number yet, so nothing answers it. */
  lemma AskKeepsInv(s: System, t0: TermId)
    requires Inv(s) && t0 in s.terms && s.terms[t0].running.Busy? && s.terms[t0].running.phase.Next?
    ensures var w0 := s.terms[t0].running.write;
            var s' := WithTerm(s, t0, s.terms[t0].(running := Busy(w0, Asking(s.asked)))).(asked := s.asked + 1);
            Inv(Send(s', s.terms[t0].tab, w0.origin, Ready(w0.request, t0, s.asked)))
  {
    var w0 := s.terms[t0].running.write;
    var term' := s.terms[t0].(running := Busy(w0, Asking(s.asked)));
    var s' := WithTerm(s, t0, term').(asked := s.asked + 1);
    forall w ensures Local(s', w, t0) && (Hot(s', w, t0) ==> Hot(s, w, t0)) {
      assert Local(s, w, t0);
      assert forall i :: 0 <= i < |Up(s', w0, t0)| ==> !IsYes(Up(s', w0, t0)[i], w0, t0, s.asked);
      assert forall i :: 0 <= i < |Down(s', w0, t0)| ==> !IsReady(Down(s', w0, t0)[i], w0, t0, s.asked);
    }
    TermKeepsInv(s, t0, term', s.asked + 1);
    SendKeepsInv(s', term'.tab, w0.origin, Ready(w0.request, t0, s.asked));
  }

  /** What may be reported of `w0`, the running write or one that was waiting. */
  ghost predicate MayReport(s: System, t0: TermId, w0: Write, o: Outcome, waiting: seq<Write>, running: Running)
    requires t0 in s.terms
  {
    && NoDuplicates(waiting) && w0 !in waiting
    && (forall w :: w in waiting ==> w in s.terms[t0].waiting)
    && (running == s.terms[t0].running || running == Idle || (running == Busy(w0, Stalled) && InLog(s, w0, t0)))
    && (running.Busy? && running.write == w0 ==> running.phase.Stalled?)
    && (SaysNotBegun(o) ==> !InLog(s, w0, t0))
    && (o == Written ==> InLog(s, w0, t0))
    && w0 in s.issued
  }

  /** The term once the end of `w0` is recorded. */
  function Recorded(term: Term, w0: Write, o: Outcome, waiting: seq<Write>, running: Running): Term {
    var accepted := A.AfterFinish(term.accepted, w0, o, A.MAX_REMEMBERED_FINISHED_WRITES);
    term.(accepted := accepted, waiting := waiting, running := running)
  }

  /** What is remembered as finished was so before, or is the write that has just ended. */
  lemma RecordedFinished(term: Term, w0: Write, o: Outcome, waiting: seq<Write>, running: Running, w: Write)
    ensures var was, now := term.accepted, Recorded(term, w0, o, waiting, running).accepted;
            && now.inProgress == was.inProgress - {w0}
            && (w in now.finished ==>
                  (w == w0 && now.finished[w] == o) || (w in was.finished && now.finished[w] == was.finished[w]))
  {
  }

  lemma RecordKeepsWritten(s: System, t0: TermId, w0: Write, o: Outcome, waiting: seq<Write>, running: Running,
                           w: Write)
    requires t0 in s.terms && MayReport(s, t0, w0, o, waiting, running) && Local(s, w, t0)
    ensures WrittenOk(WithTerm(s, t0, Recorded(s.terms[t0], w0, o, waiting, running)), w, t0)
  {
    RecordedFinished(s.terms[t0], w0, o, waiting, running, w);
  }

  lemma RecordKeepsJobs(s: System, t0: TermId, w0: Write, o: Outcome, waiting: seq<Write>, running: Running, w: Write)
    requires t0 in s.terms && MayReport(s, t0, w0, o, waiting, running) && Local(s, w, t0)
    ensures var s' := WithTerm(s, t0, Recorded(s.terms[t0], w0, o, waiting, running));
            JobsOk(s', w, t0) && KnownOk(s', w, t0)
  {
    RecordedFinished(s.terms[t0], w0, o, waiting, running, w);
  }

  lemma RecordKeepsLocal(s: System, t0: TermId, w0: Write, o: Outcome, waiting: seq<Write>, running: Running, w: Write)
    requires t0 in s.terms && MayReport(s, t0, w0, o, waiting, running) && Local(s, w, t0)
    ensures var s' := WithTerm(s, t0, Recorded(s.terms[t0], w0, o, waiting, running));
            Local(s', w, t0) && (Hot(s', w, t0) ==> Hot(s, w, t0))
  {
    RecordKeepsJobs(s, t0, w0, o, waiting, running, w);
    RecordKeepsWritten(s, t0, w0, o, waiting, running, w);
  }

  /** A job ends, or is reported ended: recorded, taken out of the queue, and reported to its issuer. */
  lemma ReportKeepsInv(s: System, t0: TermId, w0: Write, o: Outcome, waiting: seq<Write>, running: Running)
    requires Inv(s) && t0 in s.terms && MayReport(s, t0, w0, o, waiting, running)
    ensures Inv(Report(s, t0, w0, o, waiting, running))
  {
    var term := s.terms[t0];
    var term' := Recorded(term, w0, o, waiting, running);
    var s' := WithTerm(s, t0, term').(asked := s.asked);
    assert s' == WithTerm(s, t0, term');
    forall w ensures Local(s', w, t0) && (Hot(s', w, t0) ==> Hot(s, w, t0)) {
      assert Local(s, w, t0);
      RecordKeepsLocal(s, t0, w0, o, waiting, running, w);
    }
    TermKeepsInv(s, t0, term', s.asked);
    SendKeepsInv(s', term.tab, w0.origin, Result(w0.request, t0, o));
  }

  lemma EndJobKeepsInv(s: System, t0: TermId, o: Outcome)
    requires Inv(s) && t0 in s.terms && s.terms[t0].running.Busy? && !s.terms[t0].running.phase.Stalled?
    requires SaysNotBegun(o) <==> !s.terms[t0].running.phase.Writing?
    ensures Inv(EndJob(s, t0, o))
  {
    var w0 := s.terms[t0].running.write;
    assert Local(s, w0, t0);
    ReportKeepsInv(s, t0, w0, o, s.terms[t0].waiting, Idle);
  }

  function AfterBegin(s: System, t0: TermId): System
    requires t0 in s.terms && s.terms[t0].running.Busy?
  {
    var w0 := s.terms[t0].running.write;
    WithTerm(s, t0, s.terms[t0].(running := Busy(w0, Writing))).(log := s.log + [Begun(w0, t0)])
  }

  lemma BeginKeepsLocal(s: System, t0: TermId, w: Write, t: TermId)
    requires t0 in s.terms && s.terms[t0].running.Busy? && t in s.terms && Local(s, w, t)
    requires s.terms[t0].running.phase.Answered? && s.terms[t0].running.phase.approved
    ensures Local(AfterBegin(s, t0), w, t) && (Hot(AfterBegin(s, t0), w, t) ==> Hot(s, w, t))
  {
    var w0 := s.terms[t0].running.write;
    var s' := AfterBegin(s, t0);
    assert s'.log[|s.log|] == Begun(w0, t0);
    assert InLog(s', w, t) <==> InLog(s, w, t) || (w == w0 && t == t0);
    assert t != t0 ==> (Hot(s', w, t) <==> Hot(s, w, t));
  }

  lemma NotBegunBefore(s: System, t0: TermId)
    requires Inv(s) && t0 in s.terms && s.terms[t0].running.Busy?
    requires s.terms[t0].running.phase.Answered? && s.terms[t0].running.phase.approved
    ensures !EverBegun(s.log, s.terms[t0].running.write) && s.terms[t0].running.write in s.issued
  {
    var w0 := s.terms[t0].running.write;
    assert Local(s, w0, t0) && Hot(s, w0, t0);
    forall i | 0 <= i < |s.log| ensures s.log[i].write != w0 {
      var t := s.log[i].term;
      assert s.log[i] == Begun(s.log[i].write, t);
      assert InLog(s, s.log[i].write, t) && Exclusive(s, w0, t, t0);
    }
  }

  /** The write is begun: it was hot already, and nothing had begun it before. */
  lemma BeginKeepsInv(s: System, t0: TermId)
    requires Inv(s) && t0 in s.terms && s.terms[t0].running.Busy?
    requires s.terms[t0].running.phase.Answered? && s.terms[t0].running.phase.approved
    ensures Inv(AfterBegin(s, t0)) && !EverBegun(s.log, s.terms[t0].running.write)
  {
    var s' := AfterBegin(s, t0);
    NotBegunBefore(s, t0);
    forall w ensures IssuerOk(s', w) {
      assert IssuerOk(s, w);
      if EverBegun(s.log, w) {
        var i :| 0 <= i < |s.log| && s.log[i].write == w;
        assert s'.log[i].write == w;
      }
    }
    forall w, t | t in s'.terms ensures Local(s', w, t) && (Hot(s', w, t) ==> Hot(s, w, t)) {
      BeginKeepsLocal(s, t0, w, t);
    }
    forall w, t, t' | t in s'.terms && t' in s'.terms ensures Exclusive(s', w, t, t') {
      assert Exclusive(s, w, t, t');
    }
  }

  // --- Deliveries -------------------------------------------------------------------------------

  /** What is known of the message at the head of a channel, once it has been taken off. */
  lemma DeliverKeepsInv(s: System, from: ClientId, to: ClientId, h: P.Host, full: bool)
    requires Inv(s) && Channel(s, from, to) != [] && TakesOwnAnswer(s, Deliver(from, to, h, full))
    ensures var c := Channel(s, from, to);
            Inv(Receive(WithChannel(s, from, to, c[1..]), from, to, c[0], h, full))
  {
    var c := Channel(s, from, to);
    var m := c[0];
    var s' := WithChannel(s, from, to, c[1..]);
    LossKeepsInv(s, from, to, 0);
    assert c[..0] + c[1..] == c[1..];
    assert forall i :: 0 <= i < |c[1..]| ==> c[1..][i] == c[i + 1];
    var t := m.term;
    assert t in s.terms;
    match m
    case Request(r, _) =>
      if s.terms[t].tab == to && s.terms[t].accepting {
        assert Local(s, Write(from, r), t);
        TakeRequestKeepsInv(s', Write(from, r), t, full);
      }
    case Ready(r, _, q) =>
      if s.terms[t].tab == from {
        assert Local(s, Write(to, r), t);
        AnswerQuestionKeepsInv(s', Write(to, r), t, q);
      }
    case Approval(r, _, yes, q) =>
      if s.terms[t].tab == to {
        ApprovalKeepsInv(s, s', Write(from, r), t, yes, q);
      }
    case Result(r, _, o) =>
      if s.terms[t].tab == from {
        ResultKeepsInv(s, s', Write(to, r), t, o, h);
      }
  }

  lemma ApprovalKeepsInv(s: System, s': System, w0: Write, t0: TermId, yes: bool, q: int)
    requires Inv(s) && Inv(s') && t0 in s.terms && Up(s, w0, t0) != []
    requires s' == WithChannel(s, w0.origin, s.terms[t0].tab, Up(s, w0, t0)[1..])
    requires Up(s, w0, t0)[0] == Approval(w0.request, t0, yes, q)
    requires yes && IsAsking(s, t0, w0) ==> s.terms[t0].running.phase.question == q
    ensures Inv(TakeApproval(s', w0, t0, yes, q))
  {
    if yes && IsAsking(s, t0, w0) {
      var c := Up(s, w0, t0);
      assert Local(s, w0, t0) && SaysYes(c, w0, t0, q) && Hot(s, w0, t0);
      forall i | 0 <= i < |c[1..]| ensures !IsRequest(c[1..][i], w0, t0) {
        assert c[1..][i] == c[i + 1];
      }
      forall i | 0 <= i < |Down(s', w0, t0)| ensures !IsUnbegun(Down(s', w0, t0)[i], w0, t0) {
        if Down(s', w0, t0) != Down(s, w0, t0) {
          assert Down(s', w0, t0)[i] == Down(s, w0, t0)[i + 1];
        }
      }
      forall t | t in s'.terms && Hot(s', w0, t) ensures t == t0 {
        if w0.origin != s.terms[t0].tab || t != t0 {
          LossKeepsLocalHot(s, w0, t0, t);
        }
        assert Exclusive(s, w0, t, t0);
      }
    }
    TakeApprovalKeepsInv(s', w0, t0, yes, q);
  }

  lemma LossKeepsLocalHot(s: System, w0: Write, t0: TermId, t: TermId)
    requires t0 in s.terms && t in s.terms && Up(s, w0, t0) != [] && Local(s, w0, t)
    ensures Hot(WithChannel(s, w0.origin, s.terms[t0].tab, Up(s, w0, t0)[1..]), w0, t) ==> Hot(s, w0, t)
  {
    LossKeepsLocal(s, w0.origin, s.terms[t0].tab, 0, w0, t);
    assert Up(s, w0, t0)[..0] + Up(s, w0, t0)[1..] == Up(s, w0, t0)[1..];
  }

  lemma ResultKeepsInv(s: System, s': System, w0: Write, t0: TermId, o: Outcome, h: P.Host)
    requires Inv(s) && Inv(s') && t0 in s.terms && Down(s, w0, t0) != []
    requires s' == WithChannel(s, s.terms[t0].tab, w0.origin, Down(s, w0, t0)[1..])
    requires Down(s, w0, t0)[0] == Result(w0.request, t0, o)
    ensures Inv(TakeResult(s', w0, t0, o, h))
  {
    var c := Down(s, w0, t0);
    assert Local(s, w0, t0);
    LossKeepsLocal(s, s.terms[t0].tab, w0.origin, 0, w0, t0);
    assert c[..0] + c[1..] == c[1..];
    assert SaysNotBegun(o) ==> IsUnbegun(c[0], w0, t0);
    TakeResultKeepsInv(s', w0, t0, o, h);
  }

  // --- Steps and runs ---------------------------------------------------------------------------

  predicate IsIssuerStep(step: Step) {
    step.Issue? || step.HandOn? || step.Resend? || step.TermEnded? || step.Expire? || step.Release?
  }

  lemma StepKeepsInv(s: System, step: Step)
    requires Inv(s) && Enabled(s, step) && TakesOwnAnswer(s, step)
    ensures Inv(After(s, step))
  {
    if IsIssuerStep(step) {
      IssuerStepKeepsInv(s, step);
    } else {
      match step
      case Deliver(from, to, h, full) => DeliverKeepsInv(s, from, to, h, full);
      case Lose(from, to, at) => LossKeepsInv(s, from, to, at);
      case Crash(tab) => CrashKeepsInv(s, tab);
      case _ => TermStepKeepsInv(s, step);
    }
  }

  lemma IssuerStepKeepsInv(s: System, step: Step)
    requires Inv(s) && Enabled(s, step) && IsIssuerStep(step)
    ensures Inv(After(s, step))
  {
    match step
    case Issue(w, h) =>
      IssueKeepsInv(s, w);
      HandOverKeepsInv(s.(issued := s.issued + {w}, pending := s.pending[w := P.FRESH]), w, h);
    case HandOn(w, h) => HandOverKeepsInv(s, w, h);
    case Resend(w, h) =>
      TakeBackKeepsInv(s, w, h);
      HandOverKeepsInv(s.(pending := s.pending[w := P.TakeBack(s.pending[w], h)]), w, h);
    case TermEnded(w, t) => SettleKeepsInv(s, w, OwnerLost);
    case Expire(w) => ExpireKeepsInv(s, w);
    case Release(w) => SettleKeepsInv(s, w, Released);
  }

  predicate IsJobStep(step: Step) {
    step.Late? || step.Ask? || step.StopWaiting? || step.Conclude? || step.Stall? || step.Finish?
  }

  lemma TermStepKeepsInv(s: System, step: Step)
    requires Inv(s) && IsTermStep(step) && TermEnabled(s, step)
    ensures Inv(TermAfter(s, step))
  {
    if IsJobStep(step) {
      JobStepKeepsInv(s, step);
    } else {
      QueueStepKeepsInv(s, step);
    }
  }

  lemma QueueStepKeepsInv(s: System, step: Step)
    requires Inv(s) && IsTermStep(step) && TermEnabled(s, step) && !IsJobStep(step)
    ensures Inv(TermAfter(s, step))
  {
    var t := step.term;
    match step
    case StartTerm(_, tab) => StartTermKeepsInv(s, t, tab);
    case StopTerm(_) => FlagsKeepInv(s, t, false, s.terms[t].isOpen);
    case Connection(_, isOpen) => FlagsKeepInv(s, t, s.terms[t].accepting, isOpen);
    case StartJob(_) => StartJobKeepsInv(s, t);
    case Withdraw(_, at) => WithdrawKeepsInv(s, t, at);
  }

  lemma JobStepKeepsInv(s: System, step: Step)
    requires Inv(s) && IsTermStep(step) && TermEnabled(s, step) && IsJobStep(step)
    ensures Inv(TermAfter(s, step))
  {
    var t := step.term;
    match step
    case Late(_) => EndJobKeepsInv(s, t, Timeout(false));
    case Ask(_) => if !s.terms[t].isOpen { EndJobKeepsInv(s, t, NotConnected); } else { AskKeepsInv(s, t); }
    case StopWaiting(_) => PhaseKeepsInv(s, t, Answered(false, s.terms[t].running.phase.question));
    case Conclude(_) => ConcludeKeepsInv(s, t);
    case Stall(_) => StallKeepsInv(s, t);
    case Finish(_, o) => if s.terms[t].running.phase.Stalled? { IdleKeepsInv(s, t); } else { EndJobKeepsInv(s, t, o); }
  }

  lemma ConcludeKeepsInv(s: System, t0: TermId)
    requires Inv(s) && TermEnabled(s, Conclude(t0))
    ensures Inv(TermAfter(s, Conclude(t0)))
  {
    if !s.terms[t0].isOpen {
      EndJobKeepsInv(s, t0, NotConnected);
    } else if !s.terms[t0].running.phase.approved {
      EndJobKeepsInv(s, t0, Timeout(false));
    } else {
      BeginKeepsInv(s, t0);
    }
  }

  lemma StallKeepsInv(s: System, t0: TermId)
    requires Inv(s) && TermEnabled(s, Stall(t0))
    ensures Inv(TermAfter(s, Stall(t0)))
  {
    var term := s.terms[t0];
    assert Local(s, term.running.write, t0);
    ReportKeepsInv(s, t0, term.running.write, Timeout(true), term.waiting, Busy(term.running.write, Stalled));
  }

  lemma WithdrawKeepsInv(s: System, t0: TermId, at: nat)
    requires Inv(s) && t0 in s.terms && at < |s.terms[t0].waiting|
    ensures var term := s.terms[t0];
            Inv(Report(s, t0, term.waiting[at], Timeout(false), term.waiting[..at] + term.waiting[at + 1..],
                       term.running))
  {
    var term := s.terms[t0];
    var w := term.waiting[at];
    assert Local(s, w, t0) && NoDuplicates(term.waiting);
    ReportKeepsInv(s, t0, w, Timeout(false), term.waiting[..at] + term.waiting[at + 1..], term.running);
  }

  lemma IdleKeepsInv(s: System, t0: TermId)
    requires Inv(s) && t0 in s.terms && s.terms[t0].running.Busy? && s.terms[t0].running.phase.Stalled?
    ensures Inv(WithTerm(s, t0, s.terms[t0].(running := Idle)))
  {
    var term' := s.terms[t0].(running := Idle);
    var s' := WithTerm(s, t0, term').(asked := s.asked);
    forall w ensures Local(s', w, t0) && (Hot(s', w, t0) ==> Hot(s, w, t0)) {
      assert Local(s, w, t0);
    }
    TermKeepsInv(s, t0, term', s.asked);
    assert s' == WithTerm(s, t0, term');
  }

  /** The states a run passes through; each step is enabled where it is taken. */
  ghost predicate IsPath(run: seq<System>, steps: seq<Step>) {
    && |run| == |steps| + 1
    && forall i :: 0 <= i < |steps| ==> Enabled(run[i], steps[i]) && run[i + 1] == After(run[i], steps[i])
  }

  ghost predicate IsRun(run: seq<System>, steps: seq<Step>) { IsPath(run, steps) && run[0] == Start }

  /** Every yes of the run is taken for the question it answers. */
  ghost predicate TakesOwnAnswers(run: seq<System>, steps: seq<Step>) {
    && |run| == |steps| + 1
    && forall i :: 0 <= i < |steps| ==> TakesOwnAnswer(run[i], steps[i])
  }

  lemma {:induction false} RunKeepsInv(run: seq<System>, steps: seq<Step>, n: nat)
    requires IsRun(run, steps) && TakesOwnAnswers(run, steps) && n <= |steps|
    ensures Inv(run[n])
  {
    if n == 0 {
      assert Inv(Start);
    } else {
      RunKeepsInv(run, steps, n - 1);
      StepKeepsInv(run[n - 1], steps[n - 1]);
    }
  }

  /** A settled write is not pending, and only issued writes are either. This rests on nothing about answers. */
  ghost predicate SettledOk(s: System) {
    && (forall w :: w in s.pending ==> w in s.issued && w !in s.settled)
    && (forall w :: w in s.settled ==> w in s.issued)
  }

  /** How a write was settled stays, and it does not become pending again. */
  ghost predicate KeepsSettled(s: System, s': System) {
    && SettledOk(s')
    && (forall w :: w in s.settled ==> w in s'.settled && s'.settled[w] == s.settled[w])
  }

  lemma ReceiptKeepsSettled(s: System, from: ClientId, to: ClientId, m: Message, h: P.Host, full: bool)
    requires SettledOk(s)
    ensures KeepsSettled(s, Receive(s, from, to, m, h, full))
  {
  }

  predicate SameRecords(s: System, s': System) {
    s'.pending == s.pending && s'.settled == s.settled && s'.issued == s.issued
  }

  lemma JobStepKeepsRecords(s: System, step: Step)
    requires IsTermStep(step) && TermEnabled(s, step) && IsJobStep(step)
    ensures SameRecords(s, TermAfter(s, step))
  {
  }

  lemma TermStepKeepsRecords(s: System, step: Step)
    requires IsTermStep(step) && TermEnabled(s, step)
    ensures SameRecords(s, TermAfter(s, step))
  {
    if IsJobStep(step) {
      JobStepKeepsRecords(s, step);
    }
  }

  lemma SameRecordsKeepSettled(s: System, s': System)
    requires SettledOk(s) && SameRecords(s, s')
    ensures KeepsSettled(s, s')
  {
  }

  lemma IssuerStepKeepsSettled(s: System, step: Step)
    requires SettledOk(s) && Enabled(s, step) && IsIssuerStep(step)
    ensures KeepsSettled(s, After(s, step))
  {
  }

  lemma StepKeepsSettled(s: System, step: Step)
    requires SettledOk(s) && Enabled(s, step)
    ensures KeepsSettled(s, After(s, step))
  {
    if IsIssuerStep(step) {
      IssuerStepKeepsSettled(s, step);
    } else if IsTermStep(step) {
      TermStepKeepsRecords(s, step);
      SameRecordsKeepSettled(s, TermAfter(s, step));
    } else {
      match step
      case Deliver(from, to, h, full) =>
        var c := Channel(s, from, to);
        ReceiptKeepsSettled(WithChannel(s, from, to, c[1..]), from, to, c[0], h, full);
      case Lose(from, to, at) =>
      case Crash(_) =>
    }
  }

  lemma {:induction false} RunKeepsSettled(run: seq<System>, steps: seq<Step>, n: nat)
    requires IsRun(run, steps) && n <= |steps|
    ensures SettledOk(run[n])
  {
    if n > 0 {
      RunKeepsSettled(run, steps, n - 1);
      StepKeepsSettled(run[n - 1], steps[n - 1]);
    }
  }

  lemma NextKeepsSettled(run: seq<System>, steps: seq<Step>, i: nat)
    requires IsRun(run, steps) && i < |steps|
    ensures KeepsSettled(run[i], run[i + 1])
  {
    RunKeepsSettled(run, steps, i);
    StepKeepsSettled(run[i], steps[i]);
  }

  ghost predicate SettledAlong(run: seq<System>) {
    forall i :: 0 <= i < |run| - 1 ==> KeepsSettled(run[i], run[i + 1])
  }

  lemma {:induction false} StaysSettled(run: seq<System>, w: Write, m: nat, n: nat)
    requires SettledAlong(run) && m <= n < |run| && SettledOk(run[m]) && w in run[m].settled
    ensures w in run[n].settled && run[n].settled[w] == run[m].settled[w] && w !in run[n].pending
  {
    if m < n {
      StaysSettled(run, w, m, n - 1);
      assert KeepsSettled(run[n - 1], run[n]);
    }
  }

  /** How a write was settled never changes again, in any run whatever. */
  lemma SettledIsFinal(run: seq<System>, steps: seq<Step>, w: Write, m: nat, n: nat)
    requires IsRun(run, steps) && m <= n <= |steps| && w in run[m].settled
    ensures w in run[n].settled && run[n].settled[w] == run[m].settled[w] && w !in run[n].pending
  {
    forall i | 0 <= i < |run| - 1 ensures KeepsSettled(run[i], run[i + 1]) {
      NextKeepsSettled(run, steps, i);
    }
    RunKeepsSettled(run, steps, m);
    StaysSettled(run, w, m, n);
  }

  lemma BegunIsCounted(s: System, w: Write) returns (t: TermId)
    requires Inv(s) && EverBegun(s.log, w)
    ensures t in s.terms && InLog(s, w, t) && CountedAsBegun(s, w, t)
  {
    var i :| 0 <= i < |s.log| && s.log[i].write == w;
    t := s.log[i].term;
    assert s.log[i] == Begun(w, t) && Local(s, w, t);
  }

  // --- What the protocol promises ---------------------------------------------------------------

  /** At most once: over the whole run, over all terms, no write is begun twice. */
  lemma AtMostOnce(run: seq<System>, steps: seq<Step>, i: nat, j: nat)
    requires IsRun(run, steps) && TakesOwnAnswers(run, steps)
    requires i < j < |run[|steps|].log|
    ensures run[|steps|].log[i].write != run[|steps|].log[j].write
  {
    RunKeepsInv(run, steps, |steps|);
  }

  /**
   * Honest rejections: a write once rejected as not written - `WRITE_TIMEOUT` with `started: false`,
   * whoever's deadline it was, or `WRITE_QUEUE_FULL` - is not begun then, nor ever afterwards.
   */
  lemma RejectedAsUnwrittenIsNeverBegun(run: seq<System>, steps: seq<Step>, w: Write, m: nat, n: nat)
    requires IsRun(run, steps) && TakesOwnAnswers(run, steps) && m <= n <= |steps|
    requires w in run[m].settled && PromisesUnwritten(run[m].settled[w])
    ensures !EverBegun(run[n].log, w)
  {
    RunKeepsInv(run, steps, n);
    SettledIsFinal(run, steps, w, m, n);
    if EverBegun(run[n].log, w) {
      var t := BegunIsCounted(run[n], w);
    }
  }

  /**
   * A write its issuer still waits on and has not let begin was not begun, anywhere: handing it to
   * another term is not a repeat.
   */
  lemma UnstartedWasNotBegun(run: seq<System>, steps: seq<Step>, w: Write, n: nat)
    requires IsRun(run, steps) && TakesOwnAnswers(run, steps) && n <= |steps|
    requires w in run[n].pending && run[n].pending[w].startedTerm.None?
    ensures !EverBegun(run[n].log, w)
  {
    RunKeepsInv(run, steps, n);
    if EverBegun(run[n].log, w) {
      var t := BegunIsCounted(run[n], w);
    }
  }
}
