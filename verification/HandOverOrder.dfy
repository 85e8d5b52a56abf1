/**
 * Which runs never come out of turn: those in which a tab's requests and results are not lost, none of its
 * writes is handed back, each is handed to a term only once every earlier unstarted one is with that term, and
 * only the term they are all with is answered. Then the channel, the queue of the term and the channel back
 * keep the order between them, whatever is withdrawn, refused, repeated or left unanswered on the way.
 */
module HandOverOrder {
  import opened Basics
  import opened Delivery
  import P = PendingWrites
  import A = AcceptedWrites
  import D = DeliverySafety
  import opened OrderSafety

  // --- The hypothesis ---------------------------------------------------------------------------

  datatype HandedTo = HandedTo(write: Write, term: TermId)

  /** The hand-over a step of an issuer makes. */
  function HandOverOf(s: System, step: Step): Option<HandedTo>
    requires Enabled(s, step)
  {
    match step
    case Issue(w, h) => if P.MayHandOn(P.FRESH, h) then Some(HandedTo(w, h.currentTerm.value)) else None
    case HandOn(w, h) => if P.MayHandOn(s.pending[w], h) then Some(HandedTo(w, h.currentTerm.value)) else None
    case Resend(w, h) =>
      if P.MayHandOn(P.TakeBack(s.pending[w], h), h) then Some(HandedTo(w, h.currentTerm.value)) else None
    case _ => None
  }

  /** Every hand-over of the tab so far. */
  function PastAfter(past: set<HandedTo>, s: System, step: Step, tab: ClientId): set<HandedTo>
    requires Enabled(s, step)
  {
    var made := HandOverOf(s, step);
    past + if made.Some? && made.value.write.origin == tab then {made.value} else {}
  }

  predicate IsWith(s: System, w: Write, t: TermId) { w in s.pending && s.pending[w].addressedTerm == Some(t) }

  /** Every write before `w` that has not started is with `t`. */
  ghost predicate EarlierAreWith(s: System, o: seq<Write>, w: Write, t: TermId) {
    forall v :: Earlier(o, v, w) && Unstarted(s, v) ==> IsWith(s, v, t)
  }

  /** No request or result of the tab is lost. */
  predicate LosesNothing(s: System, step: Step, tab: ClientId)
    requires Enabled(s, step)
  {
    step.Lose? ==>
      var m := Channel(s, step.from, step.to)[step.at];
      !(step.from == tab && m.Request?) && !(step.to == tab && m.Result?)
  }

  /** No write of the tab is handed back. */
  predicate HandsNothingBack(s: System, step: Step, tab: ClientId)
    requires Enabled(s, step)
  {
    step.Deliver? && step.to == tab ==>
      var m := Channel(s, step.from, step.to)[0];
      m.Result? && m.outcome == NotConnected && m.term in s.terms && s.terms[m.term].tab == step.from ==>
        !IsWith(s, Write(tab, m.request), m.term)
  }

  /** A write goes to a term that is there, after the earlier ones, and not back to one it has left. */
  ghost predicate HandsOverInOrder(s: System, o: seq<Write>, past: set<HandedTo>, step: Step, tab: ClientId)
    requires Enabled(s, step)
  {
    var made := HandOverOf(s, step);
    made.Some? && made.value.write.origin == tab ==>
      && made.value.term in s.terms
      && EarlierAreWith(s, OrderAfter(o, step, tab), made.value.write, made.value.term)
      && (made.value in past ==> IsWith(s, made.value.write, made.value.term))
  }

  /** A yes goes to the term every earlier unstarted write is with, while no other may begin an earlier one. */
  ghost predicate AnswersOneTerm(s: System, o: seq<Write>, step: Step) {
    forall w, t :: w in o && Approves(s, step, w, t) ==>
      EarlierAreWith(s, o, w, t) && forall v :: Earlier(o, v, w) ==> !Bound(s, v)
  }

  ghost predicate Careful(s: System, o: seq<Write>, past: set<HandedTo>, step: Step, tab: ClientId)
    requires Enabled(s, step)
  {
    && LosesNothing(s, step, tab) && HandsNothingBack(s, step, tab)
    && HandsOverInOrder(s, o, past, step, tab) && AnswersOneTerm(s, o, step)
  }

  // --- What one term and its two channels show of a write ---------------------------------------

  /** The channel to the term's tab, the term, and the channel back. */
  datatype View = View(up: seq<Message>, term: Term, down: seq<Message>)

  function ViewOf(s: System, tab: ClientId, t: TermId): View
    requires t in s.terms
  {
    View(Channel(s, tab, s.terms[t].tab), s.terms[t], Channel(s, s.terms[t].tab, tab))
  }

  predicate Runs(term: Term, w: Write) {
    term.running.Busy? && term.running.write == w && !term.running.phase.Stalled?
  }

  predicate IsQuestion(m: Message, w: Write, t: TermId) { m.Ready? && m.request == w.request && m.term == t }

  predicate IsEnd(m: Message, w: Write, t: TermId) { m.Result? && m.request == w.request && m.term == t }

  ghost predicate Sent(up: seq<Message>, w: Write, t: TermId) {
    exists i :: 0 <= i < |up| && D.IsRequest(up[i], w, t)
  }

  ghost predicate Asked(down: seq<Message>, w: Write, t: TermId) {
    exists i :: 0 <= i < |down| && IsQuestion(down[i], w, t)
  }

  ghost predicate Ended(down: seq<Message>, w: Write, t: TermId) {
    exists i :: 0 <= i < |down| && IsEnd(down[i], w, t)
  }

  ghost predicate Arrived(x: View, w: Write, t: TermId) {
    w in x.term.waiting || Runs(x.term, w) || Ended(x.down, w, t)
  }

  /** A write handed to a term is somewhere: on the way, in the queue, or its end is on the way back. */
  ghost predicate Tracked(x: View, w: Write, t: TermId) {
    Sent(x.up, w, t) || !x.term.accepting || Arrived(x, w, t)
  }

  /** Wherever `w` is, the unstarted `v` is before it. */
  ghost predicate Before(x: View, v: Write, w: Write, t: TermId) {
    && (forall j :: 0 <= j < |x.up| && D.IsRequest(x.up[j], w, t) ==>
          !x.term.accepting || Arrived(x, v, t) || Sent(x.up[..j], v, t))
    && (forall j :: 0 <= j < |x.term.waiting| && x.term.waiting[j] == w ==>
          Ended(x.down, v, t) || Runs(x.term, v) || v in x.term.waiting[..j])
    && (Runs(x.term, w) ==> Ended(x.down, v, t))
    && (forall j :: 0 <= j < |x.down| && IsQuestion(x.down[j], w, t) ==> Ended(x.down[..j], v, t))
  }

  /** A question about a write that was let begin, or asked about before, stands behind its end. */
  ghost predicate AskedOnce(x: View, started: bool, w: Write, t: TermId) {
    && (Asked(x.down, w, t) || started ==> Ended(x.down, w, t) || (Runs(x.term, w) && !x.term.running.phase.Next?))
    && (forall i, j :: 0 <= i < j < |x.down| && IsQuestion(x.down[i], w, t) && IsQuestion(x.down[j], w, t) ==>
          Ended(x.down[..j], w, t))
    && (started ==> forall j :: 0 <= j < |x.down| && IsQuestion(x.down[j], w, t) ==> Ended(x.down[..j], w, t))
  }

  ghost predicate Seen(x: View, w: Write, t: TermId) {
    Sent(x.up, w, t) || w in x.term.waiting || Runs(x.term, w) || Asked(x.down, w, t)
  }

  // --- A message is appended --------------------------------------------------------------------

  ghost predicate Grows(c: seq<Message>, c': seq<Message>, m: Message) { c' == c || c' == c + [m] }

  lemma GrowthKeepsEnded(c: seq<Message>, c': seq<Message>, m: Message, w: Write, t: TermId)
    requires Grows(c, c', m)
    ensures Ended(c, w, t) ==> Ended(c', w, t)
    ensures Sent(c, w, t) ==> Sent(c', w, t)
    ensures Sent(c', w, t) ==> Sent(c, w, t) || (c' != c && D.IsRequest(m, w, t))
    ensures Asked(c', w, t) ==> Asked(c, w, t) || (c' != c && IsQuestion(m, w, t))
    ensures c' != c && IsEnd(m, w, t) ==> Ended(c', w, t)
    ensures c' != c && D.IsRequest(m, w, t) ==> Sent(c', w, t)
  {
    assert forall i :: 0 <= i < |c| ==> c'[i] == c[i];
    assert c' != c ==> c'[|c|] == m;
  }

  lemma GrowthKeepsTracked(x: View, x': View, m: Message, w: Write, t: TermId)
    requires Grows(x.up, x'.up, m) && Grows(x.down, x'.down, m) && x'.term == x.term
    ensures Tracked(x, w, t) ==> Tracked(x', w, t)
    ensures Arrived(x, w, t) ==> Arrived(x', w, t)
    ensures Seen(x', w, t) ==>
              || Seen(x, w, t)
              || (x'.up != x.up && D.IsRequest(m, w, t))
              || (x'.down != x.down && IsQuestion(m, w, t))
  {
    GrowthKeepsEnded(x.up, x'.up, m, w, t);
    GrowthKeepsEnded(x.down, x'.down, m, w, t);
  }

  lemma GrowthKeepsBefore(x: View, x': View, m: Message, v: Write, w: Write, t: TermId)
    requires Grows(x.up, x'.up, m) && Grows(x.down, x'.down, m) && x'.term == x.term
    requires Before(x, v, w, t)
    requires x'.up != x.up && D.IsRequest(m, w, t) ==> Tracked(x, v, t)
    requires x'.down != x.down && IsQuestion(m, w, t) ==> Ended(x.down, v, t)
    ensures Before(x', v, w, t)
  {
    GrowthKeepsTracked(x, x', m, v, t);
    GrowthKeepsEnded(x.down, x'.down, m, v, t);
    forall j | 0 <= j < |x'.up| && D.IsRequest(x'.up[j], w, t)
      ensures !x'.term.accepting || Arrived(x', v, t) || Sent(x'.up[..j], v, t)
    {
      assert x'.up[..j] == x.up[..j];
      assert x.up[..|x.up|] == x.up;
    }
    forall j | 0 <= j < |x'.down| && IsQuestion(x'.down[j], w, t) ensures Ended(x'.down[..j], v, t) {
      assert x'.down[..j] == x.down[..j];
      assert x.down[..|x.down|] == x.down;
    }
  }

  lemma GrowthKeepsAskedOnce(x: View, x': View, m: Message, started: bool, w: Write, t: TermId)
    requires Grows(x.up, x'.up, m) && Grows(x.down, x'.down, m) && x'.term == x.term
    requires AskedOnce(x, started, w, t)
    requires x'.down != x.down && IsQuestion(m, w, t) ==>
               && Runs(x.term, w) && !x.term.running.phase.Next?
               && (Asked(x.down, w, t) || started ==> Ended(x.down, w, t))
    ensures AskedOnce(x', started, w, t)
  {
    GrowthKeepsEnded(x.down, x'.down, m, w, t);
    forall j | 0 <= j < |x'.down| && IsQuestion(x'.down[j], w, t)
      ensures started || (exists i :: 0 <= i < j && IsQuestion(x'.down[i], w, t)) ==> Ended(x'.down[..j], w, t)
    {
      assert x'.down[..j] == x.down[..j];
      assert x.down[..|x.down|] == x.down;
      assert forall i :: 0 <= i < j ==> x'.down[i] == x.down[i];
    }
  }

  // --- A message is taken off, or lost ----------------------------------------------------------

  function Cut(c: seq<Message>, at: nat): seq<Message>
    requires at < |c|
  {
    c[..at] + c[at + 1..]
  }

  lemma CutKeeps(c: seq<Message>, at: nat, w: Write, t: TermId)
    requires at < |c|
    ensures Ended(c, w, t) && !IsEnd(c[at], w, t) ==> Ended(Cut(c, at), w, t)
    ensures Sent(c, w, t) && !D.IsRequest(c[at], w, t) ==> Sent(Cut(c, at), w, t)
    ensures Sent(Cut(c, at), w, t) ==> Sent(c, w, t)
    ensures Asked(Cut(c, at), w, t) ==> Asked(c, w, t)
  {
    var c' := Cut(c, at);
    assert forall i :: 0 <= i < |c'| ==> c'[i] == c[if i < at then i else i + 1];
    assert forall i :: 0 <= i < at ==> c'[i] == c[i];
    assert forall i :: at < i < |c| ==> c'[i - 1] == c[i];
  }

  /** What stood before a message still does, but for the one cut out. */
  lemma CutKeepsPrefix(c: seq<Message>, at: nat, j: nat, w: Write, t: TermId)
    requires at < |c| && j < |c| - 1
    ensures var k := if j < at then j else j + 1;
            && Cut(c, at)[j] == c[k]
            && (Ended(c[..k], w, t) && !IsEnd(c[at], w, t) ==> Ended(Cut(c, at)[..j], w, t))
            && (Sent(c[..k], w, t) && !D.IsRequest(c[at], w, t) ==> Sent(Cut(c, at)[..j], w, t))
  {
    if j < at {
      assert Cut(c, at)[..j] == c[..j];
    } else {
      assert Cut(c, at)[..j] == Cut(c[..j + 1], at);
      assert c[..j + 1][at] == c[at];
      CutKeeps(c[..j + 1], at, w, t);
    }
  }

  /** `c'` is `c`, or `c` without the message at `at`. */
  ghost predicate Shrinks(c: seq<Message>, c': seq<Message>, at: nat) {
    c' == c || (at < |c| && c' == Cut(c, at))
  }

  ghost predicate KeepsEnd(c: seq<Message>, c': seq<Message>, at: nat, w: Write, t: TermId) {
    c' == c || (at < |c| && !IsEnd(c[at], w, t))
  }

  ghost predicate KeepsRequest(c: seq<Message>, c': seq<Message>, at: nat, w: Write, t: TermId) {
    c' == c || (at < |c| && !D.IsRequest(c[at], w, t))
  }

  lemma ShrinkingKeepsTracked(x: View, x': View, i: nat, j: nat, w: Write, t: TermId)
    requires Shrinks(x.up, x'.up, i) && Shrinks(x.down, x'.down, j) && x'.term == x.term
    ensures KeepsEnd(x.down, x'.down, j, w, t) && Arrived(x, w, t) ==> Arrived(x', w, t)
    ensures KeepsEnd(x.down, x'.down, j, w, t) && KeepsRequest(x.up, x'.up, i, w, t) && Tracked(x, w, t) ==>
              Tracked(x', w, t)
    ensures Seen(x', w, t) ==> Seen(x, w, t)
  {
    if x'.up != x.up {
      CutKeeps(x.up, i, w, t);
    }
    if x'.down != x.down {
      CutKeeps(x.down, j, w, t);
    }
  }

  /** A request of `v` may be taken off once `v` has arrived. */
  lemma ShrinkingKeepsBefore(x: View, x': View, i: nat, j: nat, v: Write, w: Write, t: TermId)
    requires Shrinks(x.up, x'.up, i) && Shrinks(x.down, x'.down, j) && x'.term == x.term
    requires Before(x, v, w, t) && KeepsEnd(x.down, x'.down, j, v, t)
    requires KeepsRequest(x.up, x'.up, i, v, t) || !x.term.accepting || Arrived(x, v, t)
    ensures Before(x', v, w, t)
  {
    ShrinkingKeepsTracked(x, x', i, j, v, t);
    if x'.down != x.down {
      CutKeeps(x.down, j, v, t);
    }
    forall k | 0 <= k < |x'.up| && D.IsRequest(x'.up[k], w, t)
      ensures !x'.term.accepting || Arrived(x', v, t) || Sent(x'.up[..k], v, t)
    {
      if x'.up != x.up {
        CutKeepsPrefix(x.up, i, k, v, t);
      }
    }
    forall k | 0 <= k < |x'.down| && IsQuestion(x'.down[k], w, t) ensures Ended(x'.down[..k], v, t) {
      if x'.down != x.down {
        CutKeepsPrefix(x.down, j, k, v, t);
      }
    }
  }

  lemma ShrinkingKeepsAskedOnce(x: View, x': View, i: nat, j: nat, started: bool, w: Write, t: TermId)
    requires Shrinks(x.up, x'.up, i) && Shrinks(x.down, x'.down, j) && x'.term == x.term
    requires AskedOnce(x, started, w, t)
    requires KeepsEnd(x.down, x'.down, j, w, t)
    ensures AskedOnce(x', started, w, t)
  {
    if x'.down != x.down {
      CutKeeps(x.down, j, w, t);
      forall k | 0 <= k < |x'.down| && IsQuestion(x'.down[k], w, t)
        ensures started || (exists l :: 0 <= l < k && IsQuestion(x'.down[l], w, t)) ==> Ended(x'.down[..k], w, t)
      {
        CutKeepsPrefix(x.down, j, k, w, t);
        if l :| 0 <= l < k && IsQuestion(x'.down[l], w, t) {
          CutKeepsPrefix(x.down, j, l, w, t);
        }
      }
    }
  }

  // --- The invariant ----------------------------------------------------------------------------

  ghost predicate WithOk(s: System, past: set<HandedTo>, w: Write, t: TermId) {
    IsWith(s, w, t) ==>
      && t in s.terms && HandedTo(w, t) in past
      && Tracked(ViewOf(s, w.origin, t), w, t)
      && AskedOnce(ViewOf(s, w.origin, t), s.pending[w].startedTerm == Some(t), w, t)
  }

  ghost predicate SeenOk(s: System, past: set<HandedTo>, w: Write, t: TermId)
    requires t in s.terms
  {
    Seen(ViewOf(s, w.origin, t), w, t) ==> HandedTo(w, t) in past
  }

  ghost predicate ProgressOk(term: Term) {
    forall w :: w in term.accepted.inProgress ==> w in term.waiting || Runs(term, w)
  }

  ghost predicate PairOk(s: System, past: set<HandedTo>, v: Write, w: Write, t: TermId) {
    && (HandedTo(w, t) in past ==> HandedTo(v, t) in past)
    && (IsWith(s, v, t) && t in s.terms ==> Before(ViewOf(s, v.origin, t), v, w, t))
  }

  ghost predicate Fifo(s: System, o: seq<Write>, past: set<HandedTo>, tab: ClientId) {
    && NoDuplicates(o) && (forall w :: w in o <==> w in s.issued && w.origin == tab)
    && (forall h :: h in past ==> h.write in s.issued)
    && (forall w: Write, t :: w.origin == tab ==> WithOk(s, past, w, t))
    && (forall w: Write, t :: w.origin == tab && t in s.terms ==> SeenOk(s, past, w, t))
    && (forall t :: t in s.terms ==> ProgressOk(s.terms[t]))
    && (forall v, w, t :: Earlier(o, v, w) && Unstarted(s, v) ==> PairOk(s, past, v, w, t))
  }

  /** Nothing changes but the records of the pending writes, and of the tab's own only by their end. */
  lemma EndsKeepFifo(s: System, s': System, o: seq<Write>, past: set<HandedTo>, tab: ClientId)
    requires Fifo(s, o, past, tab)
    requires s'.terms == s.terms && s'.channels == s.channels && s'.issued == s.issued && s.gone <= s'.gone
    requires forall w: Write :: w.origin == tab && w in s'.pending ==>
               && w in s.pending && s'.pending[w].addressedTerm == s.pending[w].addressedTerm
               && s'.pending[w].startedTerm == s.pending[w].startedTerm
    ensures Fifo(s', o, past, tab)
  {
    forall w: Write, t | w.origin == tab ensures WithOk(s', past, w, t) {
      assert WithOk(s, past, w, t);
    }
    forall w: Write, t | w.origin == tab && t in s'.terms ensures SeenOk(s', past, w, t) {
      assert SeenOk(s, past, w, t);
    }
    forall v, w, t | Earlier(o, v, w) && Unstarted(s', v) ensures PairOk(s', past, v, w, t) {
      assert v in o && Unstarted(s, v) && PairOk(s, past, v, w, t);
    }
  }

  /** What a message sent by or to the tab must meet. */
  ghost predicate MayPost(s: System, o: seq<Write>, past: set<HandedTo>, tab: ClientId,
                          from: ClientId, to: ClientId, m: Message)
  {
    var w, t := Write(tab, m.request), m.term;
    && (m.Request? && from == tab ==> HandedTo(w, t) in past)
    && (m.Ready? && to == tab && t in s.terms && s.terms[t].tab == from ==>
          var x := ViewOf(s, tab, t);
          && HandedTo(w, t) in past && Runs(x.term, w) && !x.term.running.phase.Next?
          && (IsWith(s, w, t) && (Asked(x.down, w, t) || s.pending[w].startedTerm == Some(t)) ==> Ended(x.down, w, t))
          && (forall v :: Earlier(o, v, w) && Unstarted(s, v) && IsWith(s, v, t) ==> Ended(x.down, v, t)))
  }

  lemma ViewAfterSend(s: System, tab: ClientId, from: ClientId, to: ClientId, m: Message, t: TermId)
    requires t in s.terms
    ensures var x, x' := ViewOf(s, tab, t), ViewOf(Send(s, from, to, m), tab, t);
            && Grows(x.up, x'.up, m) && Grows(x.down, x'.down, m) && x'.term == x.term
            && (x'.up != x.up ==> from == tab && to == s.terms[t].tab)
            && (x'.down != x.down ==> from == s.terms[t].tab && to == tab)
  {
  }

  lemma SendKeepsFifo(s: System, o: seq<Write>, past: set<HandedTo>, tab: ClientId,
                      from: ClientId, to: ClientId, m: Message)
    requires Fifo(s, o, past, tab) && MayPost(s, o, past, tab, from, to, m)
    ensures Fifo(Send(s, from, to, m), o, past, tab)
  {
    var s' := Send(s, from, to, m);
    forall w: Write, t | w.origin == tab ensures WithOk(s', past, w, t) {
      assert WithOk(s, past, w, t);
      if IsWith(s, w, t) {
        ViewAfterSend(s, tab, from, to, m, t);
        GrowthKeepsTracked(ViewOf(s, tab, t), ViewOf(s', tab, t), m, w, t);
        GrowthKeepsAskedOnce(ViewOf(s, tab, t), ViewOf(s', tab, t), m, s.pending[w].startedTerm == Some(t), w, t);
      }
    }
    forall w: Write, t | w.origin == tab && t in s'.terms ensures SeenOk(s', past, w, t) {
      assert SeenOk(s, past, w, t);
      ViewAfterSend(s, tab, from, to, m, t);
      GrowthKeepsTracked(ViewOf(s, tab, t), ViewOf(s', tab, t), m, w, t);
    }
    forall v, w, t | Earlier(o, v, w) && Unstarted(s', v) ensures PairOk(s', past, v, w, t) {
      SendKeepsPair(s, o, past, tab, from, to, m, v, w, t);
    }
  }

  lemma SendKeepsPair(s: System, o: seq<Write>, past: set<HandedTo>, tab: ClientId,
                      from: ClientId, to: ClientId, m: Message, v: Write, w: Write, t: TermId)
    requires Fifo(s, o, past, tab) && MayPost(s, o, past, tab, from, to, m)
    requires Earlier(o, v, w) && Unstarted(s, v)
    ensures PairOk(Send(s, from, to, m), past, v, w, t)
  {
    assert v in o && w in o;
    assert PairOk(s, past, v, w, t) && WithOk(s, past, v, t);
    if IsWith(s, v, t) {
      ViewAfterSend(s, tab, from, to, m, t);
      GrowthKeepsBefore(ViewOf(s, tab, t), ViewOf(Send(s, from, to, m), tab, t), m, v, w, t);
    }
  }

  /** A message may leave its channel unless it is all there is of a write its issuer still counts on. */
  ghost predicate MayLeave(s: System, tab: ClientId, from: ClientId, to: ClientId, m: Message) {
    var w, t := Write(tab, m.request), m.term;
    IsWith(s, w, t) && t in s.terms ==>
      && (m.Request? && from == tab && to == s.terms[t].tab ==>
            !s.terms[t].accepting || Arrived(ViewOf(s, tab, t), w, t))
      && !(m.Result? && to == tab && from == s.terms[t].tab)
  }

  lemma CutKeepsFifo(s: System, o: seq<Write>, past: set<HandedTo>, tab: ClientId, from: ClientId, to: ClientId,
                     at: nat)
    requires Fifo(s, o, past, tab) && at < |Channel(s, from, to)|
    requires MayLeave(s, tab, from, to, Channel(s, from, to)[at])
    ensures Fifo(WithChannel(s, from, to, Cut(Channel(s, from, to), at)), o, past, tab)
  {
    var s' := WithChannel(s, from, to, Cut(Channel(s, from, to), at));
    forall w: Write, t | w.origin == tab ensures WithOk(s', past, w, t) {
      CutKeepsWith(s, o, past, tab, from, to, at, w, t);
    }
    forall w: Write, t | w.origin == tab && t in s'.terms ensures SeenOk(s', past, w, t) {
      assert SeenOk(s, past, w, t);
      ShrinkingKeepsTracked(ViewOf(s, tab, t), ViewOf(s', tab, t), at, at, w, t);
    }
    forall v, w, t | Earlier(o, v, w) && Unstarted(s', v) ensures PairOk(s', past, v, w, t) {
      CutKeepsPair(s, o, past, tab, from, to, at, v, w, t);
    }
  }

  lemma CutKeepsWith(s: System, o: seq<Write>, past: set<HandedTo>, tab: ClientId, from: ClientId, to: ClientId,
                     at: nat,
                     w: Write, t: TermId)
    requires Fifo(s, o, past, tab) && at < |Channel(s, from, to)|
    requires MayLeave(s, tab, from, to, Channel(s, from, to)[at]) && w.origin == tab
    ensures WithOk(WithChannel(s, from, to, Cut(Channel(s, from, to), at)), past, w, t)
  {
    var s' := WithChannel(s, from, to, Cut(Channel(s, from, to), at));
    assert WithOk(s, past, w, t);
    if IsWith(s, w, t) {
      var x, x' := ViewOf(s, tab, t), ViewOf(s', tab, t);
      var started := s.pending[w].startedTerm == Some(t);
      ShrinkingKeepsTracked(x, x', at, at, w, t);
      ShrinkingKeepsAskedOnce(x, x', at, at, started, w, t);
    }
  }

  lemma CutKeepsPair(s: System, o: seq<Write>, past: set<HandedTo>, tab: ClientId, from: ClientId, to: ClientId,
                     at: nat,
                     v: Write, w: Write, t: TermId)
    requires Fifo(s, o, past, tab) && at < |Channel(s, from, to)|
    requires MayLeave(s, tab, from, to, Channel(s, from, to)[at])
    requires Earlier(o, v, w) && Unstarted(s, v)
    ensures PairOk(WithChannel(s, from, to, Cut(Channel(s, from, to), at)), past, v, w, t)
  {
    var s' := WithChannel(s, from, to, Cut(Channel(s, from, to), at));
    assert v in o && PairOk(s, past, v, w, t);
    if IsWith(s, v, t) && t in s.terms {
      ShrinkingKeepsBefore(ViewOf(s, tab, t), ViewOf(s', tab, t), at, at, v, w, t);
    }
  }

  // --- The issuer hands a write over ------------------------------------------------------------

  lemma PastGrows(s: System, o: seq<Write>, past: set<HandedTo>, tab: ClientId, w0: Write, t0: TermId)
    requires Fifo(s, o, past, tab) && w0 in o && EarlierAreWith(s, o, w0, t0)
    ensures Fifo(s, o, past + {HandedTo(w0, t0)}, tab)
  {
    var past' := past + {HandedTo(w0, t0)};
    forall w: Write, t | w.origin == tab ensures WithOk(s, past', w, t) {
      assert WithOk(s, past, w, t);
    }
    forall w: Write, t | w.origin == tab && t in s.terms ensures SeenOk(s, past', w, t) {
      assert SeenOk(s, past, w, t);
    }
    forall v, w, t | Earlier(o, v, w) && Unstarted(s, v) ensures PairOk(s, past', v, w, t) {
      assert v in o && PairOk(s, past, v, w, t);
      if w == w0 && t == t0 {
        assert WithOk(s, past, v, t);
      }
    }
  }

  /** Where the write has not been before, nothing shows of it, nor of any later one. */
  lemma NothingIsThere(s: System, o: seq<Write>, past: set<HandedTo>, tab: ClientId, v: Write, w: Write, t: TermId)
    requires Fifo(s, o, past, tab) && t in s.terms && HandedTo(v, t) !in past
    requires (v == w && v in o) || (Earlier(o, v, w) && Unstarted(s, v))
    ensures !Seen(ViewOf(s, tab, t), w, t)
  {
    if v != w {
      assert PairOk(s, past, v, w, t);
    }
    assert w in o && SeenOk(s, past, w, t);
  }

  lemma UnseenIsBehind(x: View, v: Write, w: Write, t: TermId)
    requires !Seen(x, w, t)
    ensures Before(x, v, w, t) && AskedOnce(x, false, w, t)
  {
  }

  /** The request has been sent; now the record says so. */
  ghost predicate IsSent(s: System, s1: System, o: seq<Write>, past: set<HandedTo>, tab: ClientId, w0: Write,
                         t0: TermId)
  {
    && Fifo(s, o, past, tab) && w0 in o && Unstarted(s, w0) && t0 in s.terms
    && (HandedTo(w0, t0) in past ==> IsWith(s, w0, t0))
    && s1 == Send(s, tab, s.terms[t0].tab, Request(w0.request, t0))
    && Fifo(s1, o, past + {HandedTo(w0, t0)}, tab)
  }

  lemma RecordKeepsWith(s: System, s1: System, o: seq<Write>, past: set<HandedTo>, tab: ClientId, w0: Write, t0: TermId,
                        p: P.Pending)
    requires IsSent(s, s1, o, past, tab, w0, t0) && p.addressedTerm == Some(t0) && p.startedTerm.None?
    ensures WithOk(s1.(pending := s1.pending[w0 := p]), past + {HandedTo(w0, t0)}, w0, t0)
  {
    var m := Request(w0.request, t0);
    ViewAfterSend(s, tab, tab, s.terms[t0].tab, m, t0);
    var x, x1 := ViewOf(s, tab, t0), ViewOf(s1, tab, t0);
    GrowthKeepsEnded(x.up, x1.up, m, w0, t0);
    assert WithOk(s1, past + {HandedTo(w0, t0)}, w0, t0);
    if !IsWith(s, w0, t0) {
      NothingIsThere(s, o, past, tab, w0, w0, t0);
      GrowthKeepsEnded(x.down, x1.down, m, w0, t0);
    }
  }

  lemma RecordKeepsPair(s: System, s1: System, o: seq<Write>, past: set<HandedTo>, tab: ClientId, w0: Write, t0: TermId,
                        p: P.Pending, w: Write)
    requires IsSent(s, s1, o, past, tab, w0, t0) && p.addressedTerm == Some(t0) && p.startedTerm.None?
    requires Earlier(o, w0, w)
    ensures PairOk(s1.(pending := s1.pending[w0 := p]), past + {HandedTo(w0, t0)}, w0, w, t0)
  {
    assert w0 in o && w in o && Unstarted(s1, w0);
    assert PairOk(s1, past + {HandedTo(w0, t0)}, w0, w, t0);
    if !IsWith(s, w0, t0) {
      NothingIsThere(s, o, past, tab, w0, w, t0);
      EarlierIsAntisymmetric(o, w0, w);
      var m := Request(w0.request, t0);
      ViewAfterSend(s, tab, tab, s.terms[t0].tab, m, t0);
      GrowthKeepsTracked(ViewOf(s, tab, t0), ViewOf(s1, tab, t0), m, w, t0);
      UnseenIsBehind(ViewOf(s1, tab, t0), w0, w, t0);
    }
  }

  lemma RecordKeepsFifo(s: System, s1: System, o: seq<Write>, past: set<HandedTo>, tab: ClientId, w0: Write, t0: TermId,
                        p: P.Pending)
    requires IsSent(s, s1, o, past, tab, w0, t0) && p.addressedTerm == Some(t0) && p.startedTerm.None?
    ensures Fifo(s1.(pending := s1.pending[w0 := p]), o, past + {HandedTo(w0, t0)}, tab)
  {
    var past' := past + {HandedTo(w0, t0)};
    var s' := s1.(pending := s1.pending[w0 := p]);
    forall w: Write, t | w.origin == tab ensures WithOk(s', past', w, t) {
      assert WithOk(s1, past', w, t);
      RecordKeepsWith(s, s1, o, past, tab, w0, t0, p);
    }
    forall w: Write, t | w.origin == tab && t in s'.terms ensures SeenOk(s', past', w, t) {
      assert SeenOk(s1, past', w, t);
    }
    forall v, w, t | Earlier(o, v, w) && Unstarted(s', v) ensures PairOk(s', past', v, w, t) {
      assert v in o && PairOk(s1, past', v, w, t);
      if v == w0 && t == t0 {
        RecordKeepsPair(s, s1, o, past, tab, w0, t0, p, w);
      }
    }
  }

  lemma HandOverKeepsFifo(s: System, o: seq<Write>, past: set<HandedTo>, tab: ClientId, w0: Write, h: P.Host)
    requires Fifo(s, o, past, tab) && Mine(s, w0) && w0.origin == tab && w0 in o
    requires P.MayHandOn(s.pending[w0], h) ==>
               var t := h.currentTerm.value;
               && t in s.terms && EarlierAreWith(s, o, w0, t)
               && (HandedTo(w0, t) in past ==> IsWith(s, w0, t))
    ensures var past' := past + if P.MayHandOn(s.pending[w0], h) then {HandedTo(w0, h.currentTerm.value)} else {};
            Fifo(HandOver(s, w0, h), o, past', tab)
  {
    var p := s.pending[w0];
    if P.MayHandOn(p, h) {
      var t := h.currentTerm.value;
      PastGrows(s, o, past, tab, w0, t);
      var m := Request(w0.request, t);
      assert Write(tab, m.request) == w0;
      SendKeepsFifo(s, o, past + {HandedTo(w0, t)}, tab, tab, s.terms[t].tab, m);
      var s1 := Send(s, tab, s.terms[t].tab, m);
      RecordKeepsFifo(s, s1, o, past, tab, w0, t, P.HandOn(p, h));
      assert HandOver(s, w0, h) == s1.(pending := s1.pending[w0 := P.HandOn(p, h)]);
    } else {
      assert past + {} == past;
      EndsKeepFifo(s, HandOver(s, w0, h), o, past, tab);
    }
  }

  /** What other tabs hand over is on channels of their own. */
  lemma OthersHandOver(s: System, o: seq<Write>, past: set<HandedTo>, tab: ClientId, w0: Write, h: P.Host)
    requires Fifo(s, o, past, tab) && w0 in s.pending && w0.origin != tab
    ensures Fifo(HandOver(s, w0, h), o, past, tab)
  {
    var p := P.HandOn(s.pending[w0], h);
    var s1 := s.(pending := s.pending[w0 := p]);
    EndsKeepFifo(s, s1, o, past, tab);
    if P.MayHandOn(s.pending[w0], h) && h.currentTerm.value in s.terms {
      SendKeepsFifo(s1, o, past, tab, w0.origin, s.terms[h.currentTerm.value].tab,
                    Request(w0.request, h.currentTerm.value));
    }
  }

  lemma IssueKeepsFifo(s: System, o: seq<Write>, past: set<HandedTo>, tab: ClientId, w0: Write)
    requires D.Inv(s) && Fifo(s, o, past, tab) && w0 !in s.issued
    ensures var o' := o + if w0.origin == tab then [w0] else [];
            Fifo(s.(issued := s.issued + {w0}, pending := s.pending[w0 := P.FRESH]), o', past, tab)
  {
    var s' := s.(issued := s.issued + {w0}, pending := s.pending[w0 := P.FRESH]);
    var o' := o + if w0.origin == tab then [w0] else [];
    assert w0.origin != tab ==> o' == o;
    forall w: Write, t | w.origin == tab ensures WithOk(s', past, w, t) {
      assert WithOk(s, past, w, t);
    }
    forall w: Write, t | w.origin == tab && t in s'.terms ensures SeenOk(s', past, w, t) {
      assert SeenOk(s, past, w, t);
    }
    forall v, w, t | Earlier(o', v, w) && Unstarted(s', v) ensures PairOk(s', past, v, w, t) {
      if w0.origin == tab {
        EarlierAfterIssue(o, w0, v, w);
      }
      if w == w0 && t in s.terms {
        assert v in o;
        assert SeenOk(s, past, w, t);
        UnseenIsBehind(ViewOf(s, tab, t), v, w, t);
      } else if w != w0 {
        assert v in o && Unstarted(s, v) && PairOk(s, past, v, w, t);
      }
    }
  }

  // --- The term acts ----------------------------------------------------------------------------

  /** What becomes of the writes a term shows, when the term changes and its channels do not. */
  ghost predicate MayChange(s: System, o: seq<Write>, tab: ClientId, t0: TermId, term: Term)
    requires t0 in s.terms
  {
    var x := ViewOf(s, tab, t0);
    var x' := x.(term := term);
    && term.tab == s.terms[t0].tab
    && ProgressOk(term)
    && (forall w: Write :: w.origin == tab && IsWith(s, w, t0) ==>
          Tracked(x', w, t0) && AskedOnce(x', s.pending[w].startedTerm == Some(t0), w, t0))
    && (forall w: Write :: w.origin == tab && Seen(x', w, t0) ==> Seen(x, w, t0))
    && (forall v, w :: Earlier(o, v, w) && Unstarted(s, v) && IsWith(s, v, t0) ==> Before(x', v, w, t0))
  }

  lemma TermKeepsFifo(s: System, o: seq<Write>, past: set<HandedTo>, tab: ClientId, t0: TermId, term: Term, s': System)
    requires Fifo(s, o, past, tab) && t0 in s.terms && MayChange(s, o, tab, t0, term)
    requires s'.terms == s.terms[t0 := term] && s'.channels == s.channels && s'.pending == s.pending
    requires s'.gone == s.gone && s'.issued == s.issued
    ensures Fifo(s', o, past, tab)
  {
    forall w: Write, t | w.origin == tab ensures WithOk(s', past, w, t) {
      assert WithOk(s, past, w, t);
    }
    forall w: Write, t | w.origin == tab && t in s'.terms ensures SeenOk(s', past, w, t) {
      assert SeenOk(s, past, w, t);
    }
    forall v, w, t | Earlier(o, v, w) && Unstarted(s', v) ensures PairOk(s', past, v, w, t) {
      assert v in o && PairOk(s, past, v, w, t);
    }
  }

  lemma OkInTerm(s: System, o: seq<Write>, past: set<HandedTo>, tab: ClientId, t: TermId)
    requires Fifo(s, o, past, tab) && t in s.terms
    ensures ProgressOk(s.terms[t])
    ensures forall w: Write :: w.origin == tab && IsWith(s, w, t) ==>
              && Tracked(ViewOf(s, tab, t), w, t)
              && AskedOnce(ViewOf(s, tab, t), s.pending[w].startedTerm == Some(t), w, t)
    ensures forall v, w :: Earlier(o, v, w) && Unstarted(s, v) && IsWith(s, v, t) ==> Before(ViewOf(s, tab, t), v, w, t)
  {
    forall w: Write | w.origin == tab && IsWith(s, w, t)
      ensures Tracked(ViewOf(s, tab, t), w, t)
      ensures AskedOnce(ViewOf(s, tab, t), s.pending[w].startedTerm == Some(t), w, t)
    {
      assert WithOk(s, past, w, t);
    }
    forall v, w | Earlier(o, v, w) && Unstarted(s, v) && IsWith(s, v, t) ensures Before(ViewOf(s, tab, t), v, w, t) {
      assert v in o && PairOk(s, past, v, w, t);
    }
  }

  /** `StopTerm`, `Connection`, and the phases of a job that has been asked about. */
  lemma PhaseMayChange(s: System, o: seq<Write>, past: set<HandedTo>, tab: ClientId, t: TermId, term: Term)
    requires Fifo(s, o, past, tab) && t in s.terms
    requires var old' := s.terms[t];
             && term == old'.(accepting := term.accepting, isOpen := term.isOpen, running := term.running)
             && (term.accepting ==> old'.accepting)
             && (term.running == old'.running
                 || (term.running.Busy? && old'.running.Busy? && term.running.write == old'.running.write
                     && !term.running.phase.Next? && !term.running.phase.Stalled? && !old'.running.phase.Stalled?)
                 || (old'.running.Busy? && old'.running.phase.Stalled? && term.running.Idle?))
    ensures MayChange(s, o, tab, t, term)
  {
    OkInTerm(s, o, past, tab, t);
    var x := ViewOf(s, tab, t);
    var x' := x.(term := term);
    forall w ensures Arrived(x', w, t) <==> Arrived(x, w, t) {
    }
  }

  lemma StartMayChange(s: System, o: seq<Write>, past: set<HandedTo>, tab: ClientId, t: TermId)
    requires Fifo(s, o, past, tab) && TermEnabled(s, StartJob(t))
    ensures var term := s.terms[t];
            MayChange(s, o, tab, t, term.(waiting := term.waiting[1..], running := Busy(term.waiting[0], Next)))
  {
    OkInTerm(s, o, past, tab, t);
    var term := s.terms[t];
    var term' := term.(waiting := term.waiting[1..], running := Busy(term.waiting[0], Next));
    var x := ViewOf(s, tab, t);
    var x' := x.(term := term');
    assert term.waiting == [term.waiting[0]] + term'.waiting;
    forall w ensures Arrived(x', w, t) <==> Arrived(x, w, t) {
    }
    forall v, w | Earlier(o, v, w) && Unstarted(s, v) && IsWith(s, v, t) ensures Before(x', v, w, t) {
      assert Before(x, v, w, t);
      assert Runs(term', w) ==> v !in term.waiting[..0];
      forall j | 0 <= j < |term'.waiting| && term'.waiting[j] == w
        ensures Ended(x.down, v, t) || Runs(term', v) || v in term'.waiting[..j]
      {
        assert term.waiting[j + 1] == w;
        assert term.waiting[..j + 1] == [term.waiting[0]] + term'.waiting[..j];
      }
    }
  }

  /** The queue without the write at `at`: the others keep their order. */
  lemma QueueWithout(q: seq<Write>, at: nat, j: nat, y: Write)
    requires at < |q| && j < |q| - 1 && y != q[at]
    ensures var q' := q[..at] + q[at + 1..];
            var k := if j < at then j else j + 1;
            q'[j] == q[k] && (y in q[..k] ==> y in q'[..j])
  {
    var q' := q[..at] + q[at + 1..];
    var k := if j < at then j else j + 1;
    if y in q[..k] {
      var i :| 0 <= i < k && q[i] == y;
      assert q'[if i < at then i else i - 1] == y;
    }
  }

  predicate IsWithout(q: seq<Write>, q': seq<Write>, v0: Write) {
    q' == q || exists at :: 0 <= at < |q| && q[at] == v0 && q' == q[..at] + q[at + 1..]
  }

  /** `v0` leaves the queue, or ends as the running write; no other write moves. */
  predicate Leaves(term: Term, term': Term, v0: Write) {
    && term' == term.(accepted := term'.accepted, waiting := term'.waiting, running := term'.running)
    && term'.accepted.inProgress == term.accepted.inProgress - {v0}
    && (term'.running == term.running
        || (term.running.Busy? && term.running.write == v0
            && (term'.running.Idle? || term'.running == Busy(v0, Stalled))))
    && IsWithout(term.waiting, term'.waiting, v0)
  }

  lemma LeavingKeepsTracked(x: View, term': Term, v0: Write, started: bool, w: Write, t: TermId)
    requires Leaves(x.term, term', v0) && (w == v0 ==> Ended(x.down, v0, t))
    ensures Arrived(x, w, t) ==> Arrived(x.(term := term'), w, t)
    ensures Tracked(x, w, t) ==> Tracked(x.(term := term'), w, t)
    ensures AskedOnce(x, started, w, t) ==> AskedOnce(x.(term := term'), started, w, t)
  {
  }

  lemma LeavingShowsNothing(x: View, term': Term, v0: Write, w: Write, t: TermId)
    requires Leaves(x.term, term', v0)
    ensures Seen(x.(term := term'), w, t) ==> Seen(x, w, t)
  {
  }

  lemma LeavingKeepsBefore(x: View, term': Term, v0: Write, v: Write, w: Write, t: TermId)
    requires Leaves(x.term, term', v0) && (v == v0 ==> Ended(x.down, v0, t)) && Before(x, v, w, t)
    ensures Before(x.(term := term'), v, w, t)
  {
    LeavingKeepsTracked(x, term', v0, false, v, t);
    forall j | 0 <= j < |term'.waiting| && term'.waiting[j] == w
      ensures Ended(x.down, v, t) || Runs(term', v) || v in term'.waiting[..j]
    {
      if term'.waiting != x.term.waiting && v != v0 {
        var at :| 0 <= at < |x.term.waiting| && x.term.waiting[at] == v0
                  && term'.waiting == x.term.waiting[..at] + x.term.waiting[at + 1..];
        QueueWithout(x.term.waiting, at, j, v);
      }
    }
  }

  /** A write whose end has been sent leaves the term. */
  lemma EndMayChange(s: System, o: seq<Write>, past: set<HandedTo>, tab: ClientId, t: TermId, v0: Write, term': Term)
    requires Fifo(s, o, past, tab) && t in s.terms && Leaves(s.terms[t], term', v0)
    requires v0.origin == tab ==> Ended(ViewOf(s, tab, t).down, v0, t)
    ensures MayChange(s, o, tab, t, term')
  {
    OkInTerm(s, o, past, tab, t);
    var x := ViewOf(s, tab, t);
    var x' := x.(term := term');
    forall w: Write | w.origin == tab && IsWith(s, w, t)
      ensures Tracked(x', w, t) && AskedOnce(x', s.pending[w].startedTerm == Some(t), w, t)
    {
      LeavingKeepsTracked(x, term', v0, s.pending[w].startedTerm == Some(t), w, t);
    }
    forall w: Write | w.origin == tab && Seen(x', w, t) ensures Seen(x, w, t) {
      LeavingShowsNothing(x, term', v0, w, t);
    }
    forall v, w | Earlier(o, v, w) && Unstarted(s, v) && IsWith(s, v, t) ensures Before(x', v, w, t) {
      assert v in o;
      LeavingKeepsBefore(x, term', v0, v, w, t);
    }
    LeavingKeepsProgress(s.terms[t], term', v0);
  }

  lemma LeavingKeepsProgress(term: Term, term': Term, v0: Write)
    requires Leaves(term, term', v0) && ProgressOk(term)
    ensures ProgressOk(term')
  {
  }

  /** The end is sent, then the write leaves: in either order the state is the same. */
  lemma EndIsSent(s: System, o: seq<Write>, past: set<HandedTo>, tab: ClientId, t: TermId, v0: Write, outcome: Outcome)
    requires Fifo(s, o, past, tab) && t in s.terms
    ensures var s1 := Send(s, s.terms[t].tab, v0.origin, Result(v0.request, t, outcome));
            Fifo(s1, o, past, tab) && (v0.origin == tab ==> Ended(ViewOf(s1, tab, t).down, v0, t))
  {
    var m := Result(v0.request, t, outcome);
    SendKeepsFifo(s, o, past, tab, s.terms[t].tab, v0.origin, m);
    if v0.origin == tab {
      var down := ViewOf(s, tab, t).down;
      GrowthKeepsEnded(down, down + [m], m, v0, t);
    }
  }

  lemma ReportKeepsFifo(s: System, o: seq<Write>, past: set<HandedTo>, tab: ClientId,
                        t: TermId, v0: Write, outcome: Outcome, waiting: seq<Write>, running: Running)
    requires Fifo(s, o, past, tab) && t in s.terms
    requires var term := s.terms[t];
             && (running == term.running
                 || (term.running.Busy? && term.running.write == v0 && (running.Idle? || running == Busy(v0, Stalled))))
             && IsWithout(term.waiting, waiting, v0)
    ensures Fifo(Report(s, t, v0, outcome, waiting, running), o, past, tab)
  {
    var term := s.terms[t];
    var s1 := Send(s, term.tab, v0.origin, Result(v0.request, t, outcome));
    EndIsSent(s, o, past, tab, t, v0, outcome);
    var accepted := A.AfterFinish(term.accepted, v0, outcome, A.MAX_REMEMBERED_FINISHED_WRITES);
    var term' := term.(accepted := accepted, waiting := waiting, running := running);
    EndMayChange(s1, o, past, tab, t, v0, term');
    TermKeepsFifo(s1, o, past, tab, t, term', Report(s, t, v0, outcome, waiting, running));
  }

  /** The state between asking and sending the question. */
  function AboutToAsk(s: System, t: TermId): System
    requires TermEnabled(s, Ask(t))
  {
    WithTerm(s, t, s.terms[t].(running := Busy(s.terms[t].running.write, Asking(s.asked)))).(asked := s.asked + 1)
  }

  lemma AskMayPost(s: System, o: seq<Write>, past: set<HandedTo>, tab: ClientId, t: TermId)
    requires Fifo(s, o, past, tab) && TermEnabled(s, Ask(t))
    ensures var w := s.terms[t].running.write;
            MayPost(AboutToAsk(s, t), o, past, tab, s.terms[t].tab, w.origin, Ready(w.request, t, s.asked))
  {
    var w := s.terms[t].running.write;
    OkInTerm(s, o, past, tab, t);
    if w.origin == tab {
      assert Write(tab, w.request) == w;
      assert Runs(s.terms[t], w) && SeenOk(s, past, w, t);
    }
  }

  lemma AskingKeepsFifo(s: System, o: seq<Write>, past: set<HandedTo>, tab: ClientId, t: TermId)
    requires Fifo(s, o, past, tab) && TermEnabled(s, Ask(t))
    ensures Fifo(AboutToAsk(s, t), o, past, tab)
  {
    var term' := s.terms[t].(running := Busy(s.terms[t].running.write, Asking(s.asked)));
    PhaseMayChange(s, o, past, tab, t, term');
    TermKeepsFifo(s, o, past, tab, t, term', AboutToAsk(s, t));
  }

  lemma AskKeepsFifo(s: System, o: seq<Write>, past: set<HandedTo>, tab: ClientId, t: TermId)
    requires Fifo(s, o, past, tab) && TermEnabled(s, Ask(t)) && s.terms[t].isOpen
    ensures Fifo(TermAfter(s, Ask(t)), o, past, tab)
  {
    var w := s.terms[t].running.write;
    AskingKeepsFifo(s, o, past, tab, t);
    AskMayPost(s, o, past, tab, t);
    SendKeepsFifo(AboutToAsk(s, t), o, past, tab, s.terms[t].tab, w.origin, Ready(w.request, t, s.asked));
    assert TermAfter(s, Ask(t)) == Send(AboutToAsk(s, t), s.terms[t].tab, w.origin, Ready(w.request, t, s.asked));
  }

  lemma QueueStepKeepsFifo(s: System, o: seq<Write>, past: set<HandedTo>, tab: ClientId, step: Step)
    requires D.Inv(s) && Fifo(s, o, past, tab) && IsTermStep(step) && TermEnabled(s, step) && !D.IsJobStep(step)
    ensures Fifo(TermAfter(s, step), o, past, tab)
  {
    var t := step.term;
    match step
    case StartTerm(_, holder) => StartTermKeepsFifo(s, o, past, tab, t, holder);
    case StopTerm(_) => FlagsKeepFifo(s, o, past, tab, t, s.terms[t].(accepting := false));
    case Connection(_, isOpen) => FlagsKeepFifo(s, o, past, tab, t, s.terms[t].(isOpen := isOpen));
    case StartJob(_) =>
      var term := s.terms[t];
      var term' := term.(waiting := term.waiting[1..], running := Busy(term.waiting[0], Next));
      StartMayChange(s, o, past, tab, t);
      TermKeepsFifo(s, o, past, tab, t, term', WithTerm(s, t, term'));
    case Withdraw(_, at) =>
      var term := s.terms[t];
      ReportKeepsFifo(s, o, past, tab, t, term.waiting[at], Timeout(false),
                      term.waiting[..at] + term.waiting[at + 1..], term.running);
  }

  lemma FlagsKeepFifo(s: System, o: seq<Write>, past: set<HandedTo>, tab: ClientId, t: TermId, term: Term)
    requires Fifo(s, o, past, tab) && t in s.terms && (term.accepting ==> s.terms[t].accepting)
    requires term == s.terms[t].(accepting := term.accepting, isOpen := term.isOpen)
    ensures Fifo(WithTerm(s, t, term), o, past, tab)
  {
    PhaseMayChange(s, o, past, tab, t, term);
    TermKeepsFifo(s, o, past, tab, t, term, WithTerm(s, t, term));
  }

  lemma JobStepKeepsFifo(s: System, o: seq<Write>, past: set<HandedTo>, tab: ClientId, step: Step)
    requires Fifo(s, o, past, tab) && IsTermStep(step) && TermEnabled(s, step) && D.IsJobStep(step)
    ensures Fifo(TermAfter(s, step), o, past, tab)
  {
    var t := step.term;
    var term := s.terms[t];
    var w := term.running.write;
    match step
    case Late(_) => ReportKeepsFifo(s, o, past, tab, t, w, Timeout(false), term.waiting, Idle);
    case Ask(_) =>
      if term.isOpen {
        AskKeepsFifo(s, o, past, tab, t);
      } else {
        ReportKeepsFifo(s, o, past, tab, t, w, NotConnected, term.waiting, Idle);
      }
    case StopWaiting(_) =>
      var term' := term.(running := Busy(w, Answered(false, term.running.phase.question)));
      PhaseMayChange(s, o, past, tab, t, term');
      TermKeepsFifo(s, o, past, tab, t, term', WithTerm(s, t, term'));
    case Conclude(_) => ConcludeKeepsFifo(s, o, past, tab, t);
    case Stall(_) => ReportKeepsFifo(s, o, past, tab, t, w, Timeout(true), term.waiting, Busy(w, Stalled));
    case Finish(_, outcome) => FinishKeepsFifo(s, o, past, tab, t, outcome);
  }

  lemma ConcludeKeepsFifo(s: System, o: seq<Write>, past: set<HandedTo>, tab: ClientId, t: TermId)
    requires Fifo(s, o, past, tab) && TermEnabled(s, Conclude(t))
    ensures Fifo(TermAfter(s, Conclude(t)), o, past, tab)
  {
    var term := s.terms[t];
    var w := term.running.write;
    if !term.isOpen {
      ReportKeepsFifo(s, o, past, tab, t, w, NotConnected, term.waiting, Idle);
    } else if !term.running.phase.approved {
      ReportKeepsFifo(s, o, past, tab, t, w, Timeout(false), term.waiting, Idle);
    } else {
      PhaseMayChange(s, o, past, tab, t, term.(running := Busy(w, Writing)));
      TermKeepsFifo(s, o, past, tab, t, term.(running := Busy(w, Writing)), TermAfter(s, Conclude(t)));
    }
  }

  lemma FinishKeepsFifo(s: System, o: seq<Write>, past: set<HandedTo>, tab: ClientId, t: TermId, outcome: Outcome)
    requires Fifo(s, o, past, tab) && TermEnabled(s, Finish(t, outcome))
    ensures Fifo(TermAfter(s, Finish(t, outcome)), o, past, tab)
  {
    var term := s.terms[t];
    if term.running.phase.Stalled? {
      PhaseMayChange(s, o, past, tab, t, term.(running := Idle));
      TermKeepsFifo(s, o, past, tab, t, term.(running := Idle), TermAfter(s, Finish(t, outcome)));
    } else {
      ReportKeepsFifo(s, o, past, tab, t, term.running.write, outcome, term.waiting, Idle);
    }
  }

  lemma StartTermKeepsFifo(s: System, o: seq<Write>, past: set<HandedTo>, tab: ClientId, t0: TermId, holder: ClientId)
    requires D.Inv(s) && Fifo(s, o, past, tab) && t0 !in s.terms
    ensures Fifo(WithTerm(s, t0, Term(holder, true, false, A.Empty(), [], Idle)), o, past, tab)
  {
    var s' := WithTerm(s, t0, Term(holder, true, false, A.Empty(), [], Idle));
    forall w: Write, t | w.origin == tab ensures WithOk(s', past, w, t) {
      assert WithOk(s, past, w, t);
    }
    forall w: Write, t | w.origin == tab && t in s'.terms ensures SeenOk(s', past, w, t) {
      if t == t0 {
        var x := ViewOf(s', tab, t0);
        assert forall i :: 0 <= i < |x.up| ==> x.up[i].term in s.terms;
        assert forall i :: 0 <= i < |x.down| ==> x.down[i].term in s.terms;
      } else {
        assert SeenOk(s, past, w, t);
      }
    }
    forall v, w, t | Earlier(o, v, w) && Unstarted(s', v) ensures PairOk(s', past, v, w, t) {
      assert v in o && PairOk(s, past, v, w, t) && WithOk(s, past, v, t);
    }
  }

  // --- Deliveries -------------------------------------------------------------------------------

  lemma PopKeepsFifo(s: System, o: seq<Write>, past: set<HandedTo>, tab: ClientId, from: ClientId, to: ClientId)
    requires Fifo(s, o, past, tab) && Channel(s, from, to) != []
    requires MayLeave(s, tab, from, to, Channel(s, from, to)[0])
    ensures Fifo(Popped(s, from, to), o, past, tab)
  {
    var c := Channel(s, from, to);
    assert Cut(c, 0) == c[1..];
    CutKeepsFifo(s, o, past, tab, from, to, 0);
  }

  /** Taking a message off and sending another commute. */
  lemma PopAndSend(s: System, from: ClientId, to: ClientId, a: ClientId, b: ClientId, m: Message)
    requires Channel(s, from, to) != []
    ensures Channel(Send(s, a, b, m), from, to) != []
    ensures Channel(Send(s, a, b, m), from, to)[0] == Channel(s, from, to)[0]
    ensures Popped(Send(s, a, b, m), from, to) == Send(Popped(s, from, to), a, b, m)
  {
    var c := Channel(s, from, to);
    if (a, b) == (from, to) {
      assert (c + [m])[1..] == c[1..] + [m];
      assert s.channels[(a, b) := c + [m]][(from, to) := c[1..] + [m]] == s.channels[(a, b) := c[1..] + [m]];
      assert s.channels[(from, to) := c[1..]][(a, b) := c[1..] + [m]] == s.channels[(a, b) := c[1..] + [m]];
    } else {
      var d := Channel(s, a, b);
      assert s.channels[(a, b) := d + [m]][(from, to) := c[1..]] == s.channels[(from, to) := c[1..]][(a, b) := d + [m]];
    }
  }

  /** A request at the head of its channel is admitted behind everything that was ahead of it. */
  lemma AdmitMayChange(s: System, o: seq<Write>, past: set<HandedTo>, tab: ClientId, t: TermId, u: Write)
    requires Fifo(s, o, past, tab) && t in s.terms && s.terms[t].accepting
    requires u.origin == tab ==>
               var up := Channel(s, tab, s.terms[t].tab); up != [] && D.IsRequest(up[0], u, t)
    ensures var term := s.terms[t];
            MayChange(s, o, tab, t, term.(accepted := A.AfterAdmit(term.accepted, u), waiting := term.waiting + [u]))
  {
    OkInTerm(s, o, past, tab, t);
    var term := s.terms[t];
    var term' := term.(accepted := A.AfterAdmit(term.accepted, u), waiting := term.waiting + [u]);
    var x := ViewOf(s, tab, t);
    var x' := x.(term := term');
    forall w ensures (Arrived(x, w, t) ==> Arrived(x', w, t)) && (w in term'.waiting <==> w in term.waiting || w == u) {
    }
    forall v, w | Earlier(o, v, w) && Unstarted(s, v) && IsWith(s, v, t) ensures Before(x', v, w, t) {
      assert v in o && w in o && Before(x, v, w, t);
      forall j | 0 <= j < |term'.waiting| && term'.waiting[j] == w
        ensures Ended(x.down, v, t) || Runs(term', v) || v in term'.waiting[..j]
      {
        if j < |term.waiting| {
          assert term'.waiting[..j] == term.waiting[..j];
        } else {
          assert term'.waiting[..j] == term.waiting;
          assert x.up[..0] == [] && !Sent(x.up[..0], v, t);
        }
      }
    }
  }

  lemma RequestKeepsFifo(s: System, o: seq<Write>, past: set<HandedTo>, tab: ClientId, t: TermId, u: Write, full: bool)
    requires Fifo(s, o, past, tab) && t in s.terms && s.terms[t].accepting
    requires u.origin == tab ==>
               var up := Channel(s, tab, s.terms[t].tab); up != [] && D.IsRequest(up[0], u, t)
    ensures Fifo(TakeRequest(s, u, t, full), o, past, tab)
    ensures u.origin == tab ==> Arrived(ViewOf(TakeRequest(s, u, t, full), tab, t), u, t)
  {
    var term := s.terms[t];
    if u in term.accepted.inProgress {
      OkInTerm(s, o, past, tab, t);
    } else if term.accepted.Knows(u) {
      EndIsSent(s, o, past, tab, t, u, term.accepted.finished[u]);
    } else if full {
      EndIsSent(s, o, past, tab, t, u, QueueFull);
    } else {
      var term' := term.(accepted := A.AfterAdmit(term.accepted, u), waiting := term.waiting + [u]);
      AdmitMayChange(s, o, past, tab, t, u);
      TermKeepsFifo(s, o, past, tab, t, term', WithTerm(s, t, term'));
    }
  }

  lemma PopAndTakeRequest(s: System, from: ClientId, to: ClientId, t: TermId, u: Write, full: bool)
    requires Channel(s, from, to) != [] && t in s.terms
    ensures var s1 := TakeRequest(s, u, t, full);
            && Channel(s1, from, to) != [] && Channel(s1, from, to)[0] == Channel(s, from, to)[0]
            && Popped(s1, from, to) == TakeRequest(Popped(s, from, to), u, t, full)
  {
    var term := s.terms[t];
    if u !in term.accepted.inProgress && term.accepted.Knows(u) {
      PopAndSend(s, from, to, term.tab, u.origin, Result(u.request, t, term.accepted.finished[u]));
    } else if u !in term.accepted.inProgress && full {
      PopAndSend(s, from, to, term.tab, u.origin, Result(u.request, t, QueueFull));
    }
  }

  lemma DeliverRequestKeepsFifo(s: System, o: seq<Write>, past: set<HandedTo>, tab: ClientId, step: Step)
    requires Fifo(s, o, past, tab) && Enabled(s, step) && step.Deliver?
    requires Channel(s, step.from, step.to)[0].Request?
    ensures Fifo(After(s, step), o, past, tab)
  {
    var Request(r, t) := Channel(s, step.from, step.to)[0];
    var u := Write(step.from, r);
    if t in s.terms && s.terms[t].tab == step.to && s.terms[t].accepting {
      var s1 := TakeRequest(s, u, t, step.full);
      RequestKeepsFifo(s, o, past, tab, t, u, step.full);
      PopAndTakeRequest(s, step.from, step.to, t, u, step.full);
      PopKeepsFifo(s1, o, past, tab, step.from, step.to);
      assert After(s, step) == TakeRequest(Popped(s, step.from, step.to), u, t, step.full);
    } else {
      PopKeepsFifo(s, o, past, tab, step.from, step.to);
      assert After(s, step) == Popped(s, step.from, step.to);
    }
  }

  lemma DeliverResultKeepsFifo(s: System, o: seq<Write>, past: set<HandedTo>, tab: ClientId, step: Step)
    requires Fifo(s, o, past, tab) && Enabled(s, step) && step.Deliver? && HandsNothingBack(s, step, tab)
    requires Channel(s, step.from, step.to)[0].Result?
    ensures Fifo(After(s, step), o, past, tab)
  {
    var Result(r, t, outcome) := Channel(s, step.from, step.to)[0];
    var u := Write(step.to, r);
    if step.to == tab && IsWith(s, u, t) && t in s.terms && s.terms[t].tab == step.from {
      var s1 := Settle(s, u, outcome);
      EndsKeepFifo(s, s1, o, past, tab);
      PopKeepsFifo(s1, o, past, tab, step.from, step.to);
      assert After(s, step) == Popped(s1, step.from, step.to);
    } else {
      var s0 := Popped(s, step.from, step.to);
      PopKeepsFifo(s, o, past, tab, step.from, step.to);
      if IsWith(s, u, t) && t in s.terms && s.terms[t].tab == step.from {
        OthersResultKeepsFifo(s0, o, past, tab, u, t, outcome, step.host);
      }
    }
  }

  lemma OthersResultKeepsFifo(s: System, o: seq<Write>, past: set<HandedTo>, tab: ClientId, u: Write, t: TermId,
                              outcome: Outcome, h: P.Host)
    requires Fifo(s, o, past, tab) && IsWith(s, u, t) && u.origin != tab
    ensures Fifo(TakeResult(s, u, t, outcome, h), o, past, tab)
  {
    if outcome != NotConnected {
      EndsKeepFifo(s, Settle(s, u, outcome), o, past, tab);
    } else {
      var s1 := s.(pending := s.pending[u := P.HandBack(s.pending[u])]);
      EndsKeepFifo(s, s1, o, past, tab);
      OthersHandOver(s1, o, past, tab, u, h);
    }
  }

  lemma DeliverApprovalKeepsFifo(s: System, o: seq<Write>, past: set<HandedTo>, tab: ClientId, step: Step)
    requires Fifo(s, o, past, tab) && Enabled(s, step) && step.Deliver?
    requires Channel(s, step.from, step.to)[0].Approval?
    ensures Fifo(After(s, step), o, past, tab)
  {
    var Approval(r, t, yes, q) := Channel(s, step.from, step.to)[0];
    var u := Write(step.from, r);
    var s0 := Popped(s, step.from, step.to);
    PopKeepsFifo(s, o, past, tab, step.from, step.to);
    if t in s.terms && s.terms[t].tab == step.to && IsAsking(s, t, u) {
      var term' := s0.terms[t].(running := Busy(u, Answered(yes, q)));
      PhaseMayChange(s0, o, past, tab, t, term');
      TermKeepsFifo(s0, o, past, tab, t, term', After(s, step));
    }
  }

  /** A question taken off its channel leaves no other that its own end does not stand before. */
  lemma QuestionIsAskedOnce(x: View, x': View, started: bool, w: Write, t: TermId)
    requires AskedOnce(x, started, w, t) && x.down != [] && IsQuestion(x.down[0], w, t)
    requires x'.term == x.term && x'.down == x.down[1..]
    ensures AskedOnce(x', true, w, t)
  {
    assert Cut(x.down, 0) == x.down[1..];
    CutKeeps(x.down, 0, w, t);
    forall j | 0 <= j < |x'.down| && IsQuestion(x'.down[j], w, t) ensures Ended(x'.down[..j], w, t) {
      CutKeepsPrefix(x.down, 0, j, w, t);
    }
  }

  lemma DeliverReadyKeepsFifo(s: System, o: seq<Write>, past: set<HandedTo>, tab: ClientId, step: Step)
    requires D.Inv(s) && Fifo(s, o, past, tab) && Enabled(s, step) && step.Deliver?
    requires Channel(s, step.from, step.to)[0].Ready?
    ensures Fifo(After(s, step), o, past, tab)
  {
    var Ready(r, t, q) := Channel(s, step.from, step.to)[0];
    var u := Write(step.to, r);
    var s0 := Popped(s, step.from, step.to);
    PopKeepsFifo(s, o, past, tab, step.from, step.to);
    if t in s.terms && s.terms[t].tab == step.from {
      var yes := u in s0.pending && P.MayBegin(s0.pending[u], t);
      var s1 := if yes then s0.(pending := s0.pending[u := P.LetBegin(s0.pending[u], t)]) else s0;
      if yes && u.origin == tab {
        assert WithOk(s, past, u, t);
        QuestionIsAskedOnce(ViewOf(s, tab, t), ViewOf(s0, tab, t), s.pending[u].startedTerm == Some(t), u, t);
        MarkKeepsFifo(s0, o, past, tab, u, t);
      } else if yes {
        EndsKeepFifo(s0, s1, o, past, tab);
      }
      SendKeepsFifo(s1, o, past, tab, u.origin, step.from, Approval(r, t, yes, q));
      assert After(s, step) == Send(s1, u.origin, step.from, Approval(r, t, yes, q));
    } else {
      assert After(s, step) == s0;
    }
  }

  lemma MarkKeepsFifo(s: System, o: seq<Write>, past: set<HandedTo>, tab: ClientId, u: Write, t0: TermId)
    requires Fifo(s, o, past, tab) && u.origin == tab && IsWith(s, u, t0) && t0 in s.terms
    requires AskedOnce(ViewOf(s, tab, t0), true, u, t0)
    ensures Fifo(s.(pending := s.pending[u := P.LetBegin(s.pending[u], t0)]), o, past, tab)
  {
    var s' := s.(pending := s.pending[u := P.LetBegin(s.pending[u], t0)]);
    forall w: Write, t | w.origin == tab ensures WithOk(s', past, w, t) {
      assert WithOk(s, past, w, t);
    }
    forall w: Write, t | w.origin == tab && t in s'.terms ensures SeenOk(s', past, w, t) {
      assert SeenOk(s, past, w, t);
    }
    forall v, w, t | Earlier(o, v, w) && Unstarted(s', v) ensures PairOk(s', past, v, w, t) {
      assert v in o && Unstarted(s, v) && PairOk(s, past, v, w, t);
    }
  }

  // --- Every step -------------------------------------------------------------------------------

  lemma IssuerStepKeepsFifo(s: System, o: seq<Write>, past: set<HandedTo>, tab: ClientId, step: Step)
    requires D.Inv(s) && Fifo(s, o, past, tab) && Enabled(s, step) && HandsOverInOrder(s, o, past, step, tab)
    requires step.HandOn? || step.Resend?
    ensures Fifo(After(s, step), o, PastAfter(past, s, step, tab), tab)
  {
    var w, h := step.write, step.host;
    var s1 := if step.Resend? then s.(pending := s.pending[w := P.TakeBack(s.pending[w], h)]) else s;
    assert D.IssuerOk(s, w) && w in s.issued;
    EndsKeepFifo(s, s1, o, past, tab);
    assert o + [] == o && past + {} == past;
    if w.origin == tab {
      HandOverKeepsFifo(s1, o, past, tab, w, h);
    } else {
      OthersHandOver(s1, o, past, tab, w, h);
    }
    assert After(s, step) == HandOver(s1, w, h);
  }

  lemma IssueStepKeepsFifo(s: System, o: seq<Write>, past: set<HandedTo>, tab: ClientId, step: Step)
    requires D.Inv(s) && Fifo(s, o, past, tab) && Enabled(s, step) && HandsOverInOrder(s, o, past, step, tab)
    requires step.Issue?
    ensures Fifo(After(s, step), OrderAfter(o, step, tab), PastAfter(past, s, step, tab), tab)
  {
    var w, h := step.write, step.host;
    var s1 := s.(issued := s.issued + {w}, pending := s.pending[w := P.FRESH]);
    var o' := OrderAfter(o, step, tab);
    IssueKeepsFifo(s, o, past, tab, w);
    assert past + {} == past;
    if w.origin == tab {
      forall v, t | Earlier(o', v, w) && Unstarted(s1, v) && EarlierAreWith(s, o', w, t) ensures IsWith(s1, v, t) {
        EarlierAfterIssue(o, w, v, w);
        assert Unstarted(s, v);
      }
      HandOverKeepsFifo(s1, o', past, tab, w, h);
    } else {
      OthersHandOver(s1, o', past, tab, w, h);
    }
    assert After(s, step) == HandOver(s1, w, h);
  }

  lemma DeliveryKeepsFifo(s: System, o: seq<Write>, past: set<HandedTo>, tab: ClientId, step: Step)
    requires D.Inv(s) && Fifo(s, o, past, tab) && Enabled(s, step) && step.Deliver? && HandsNothingBack(s, step, tab)
    ensures Fifo(After(s, step), o, past, tab)
  {
    match Channel(s, step.from, step.to)[0]
    case Request(_, _) => DeliverRequestKeepsFifo(s, o, past, tab, step);
    case Ready(_, _, _) => DeliverReadyKeepsFifo(s, o, past, tab, step);
    case Approval(_, _, _, _) => DeliverApprovalKeepsFifo(s, o, past, tab, step);
    case Result(_, _, _) => DeliverResultKeepsFifo(s, o, past, tab, step);
  }

  lemma StepKeepsFifo(s: System, o: seq<Write>, past: set<HandedTo>, tab: ClientId, step: Step)
    requires D.Inv(s) && Fifo(s, o, past, tab) && Enabled(s, step) && Careful(s, o, past, step, tab)
    ensures Fifo(After(s, step), OrderAfter(o, step, tab), PastAfter(past, s, step, tab), tab)
  {
    if step.Issue? {
      IssueStepKeepsFifo(s, o, past, tab, step);
    } else if step.HandOn? || step.Resend? {
      IssuerStepKeepsFifo(s, o, past, tab, step);
      assert o + [] == o;
    } else {
      assert o + [] == o && past + {} == past;
      OtherStepKeepsFifo(s, o, past, tab, step);
    }
  }

  lemma CrashKeepsFifo(s: System, o: seq<Write>, past: set<HandedTo>, tab: ClientId, step: Step)
    requires Fifo(s, o, past, tab) && step.Crash?
    ensures Fifo(After(s, step), o, past, tab)
  {
    EndsKeepFifo(s, After(s, step), o, past, tab);
  }

  lemma LossKeepsFifo(s: System, o: seq<Write>, past: set<HandedTo>, tab: ClientId, step: Step)
    requires Fifo(s, o, past, tab) && Enabled(s, step) && step.Lose? && LosesNothing(s, step, tab)
    ensures Fifo(After(s, step), o, past, tab)
  {
    CutKeepsFifo(s, o, past, tab, step.from, step.to, step.at);
  }

  lemma TermStepKeepsFifo(s: System, o: seq<Write>, past: set<HandedTo>, tab: ClientId, step: Step)
    requires D.Inv(s) && Fifo(s, o, past, tab) && IsTermStep(step) && TermEnabled(s, step)
    ensures Fifo(TermAfter(s, step), o, past, tab)
  {
    if D.IsJobStep(step) {
      JobStepKeepsFifo(s, o, past, tab, step);
    } else {
      QueueStepKeepsFifo(s, o, past, tab, step);
    }
  }

  lemma EndKeepsFifo(s: System, o: seq<Write>, past: set<HandedTo>, tab: ClientId, step: Step)
    requires Fifo(s, o, past, tab) && Enabled(s, step) && (step.TermEnded? || step.Expire? || step.Release?)
    ensures Fifo(After(s, step), o, past, tab)
  {
    EndsKeepFifo(s, After(s, step), o, past, tab);
  }

  lemma OtherStepKeepsFifo(s: System, o: seq<Write>, past: set<HandedTo>, tab: ClientId, step: Step)
    requires D.Inv(s) && Fifo(s, o, past, tab) && Enabled(s, step)
    requires LosesNothing(s, step, tab) && HandsNothingBack(s, step, tab)
    requires !step.Issue? && !step.HandOn? && !step.Resend?
    ensures Fifo(After(s, step), o, past, tab)
  {
    if IsTermStep(step) {
      TermStepKeepsFifo(s, o, past, tab, step);
    } else {
      match step
      case Deliver(_, _, _, _) => DeliveryKeepsFifo(s, o, past, tab, step);
      case Lose(_, _, _) => LossKeepsFifo(s, o, past, tab, step);
      case Crash(_) => CrashKeepsFifo(s, o, past, tab, step);
      case TermEnded(_, _) => EndKeepsFifo(s, o, past, tab, step);
      case Expire(_) => EndKeepsFifo(s, o, past, tab, step);
      case Release(_) => EndKeepsFifo(s, o, past, tab, step);
    }
  }

  /** A question at the head of the channel back is behind nothing. */
  lemma HeadIsBehindNothing(x: View, started: bool, v: Write, w: Write, t: TermId)
    requires x.down != [] && IsQuestion(x.down[0], w, t)
    ensures !Before(x, v, w, t)
    ensures AskedOnce(x, started, w, t) ==> !started
  {
    assert !Ended(x.down[..0], v, t) && !Ended(x.down[..0], w, t);
  }

  /** Where the order of what is on the way is kept, a careful step is in turn. */
  lemma CarefulIsInTurn(s: System, o: seq<Write>, past: set<HandedTo>, tab: ClientId, step: Step)
    requires D.Inv(s) && Fifo(s, o, past, tab) && Enabled(s, step) && Careful(s, o, past, step, tab)
    ensures InTurn(s, o, step)
  {
    forall w, t | w in o && Approves(s, step, w, t)
      ensures NoneAhead(s, o, w) && s.pending[w].startedTerm.None?
    {
      var x := ViewOf(s, tab, t);
      var started := s.pending[w].startedTerm == Some(t);
      assert WithOk(s, past, w, t) && D.IssuerOk(s, w);
      HeadIsBehindNothing(x, started, w, w, t);
      forall v | Earlier(o, v, w) && Unstarted(s, v) ensures PairOk(s, past, v, w, t) && !Before(x, v, w, t) {
        HeadIsBehindNothing(x, started, v, w, t);
      }
      assert forall v :: Earlier(o, v, w) ==> v in o;
    }
  }

  // --- Runs -------------------------------------------------------------------------------------

  ghost function Past(run: seq<System>, steps: seq<Step>, n: nat, tab: ClientId): set<HandedTo>
    requires D.IsPath(run, steps) && n <= |steps|
  {
    if n == 0 then {} else PastAfter(Past(run, steps, n - 1, tab), run[n - 1], steps[n - 1], tab)
  }

  ghost predicate IsCareful(run: seq<System>, steps: seq<Step>, tab: ClientId)
    requires D.IsPath(run, steps)
  {
    forall i :: 0 <= i < |steps| ==> Careful(run[i], Issued(steps[..i], tab), Past(run, steps, i, tab), steps[i], tab)
  }

  lemma {:induction false} RunKeepsFifo(run: seq<System>, steps: seq<Step>, tab: ClientId, n: nat)
    requires D.IsRun(run, steps) && D.TakesOwnAnswers(run, steps) && n <= |steps|
    requires IsCareful(run, steps, tab)
    ensures Fifo(run[n], Issued(steps[..n], tab), Past(run, steps, n, tab), tab)
  {
    if n > 0 {
      RunKeepsFifo(run, steps, tab, n - 1);
      D.RunKeepsInv(run, steps, n - 1);
      StepKeepsFifo(run[n - 1], Issued(steps[..n - 1], tab), Past(run, steps, n - 1, tab), tab, steps[n - 1]);
      IssuedSnoc(steps, n - 1, tab);
    }
  }

  lemma CarefulRunsAreInTurn(run: seq<System>, steps: seq<Step>, tab: ClientId)
    requires D.IsRun(run, steps) && D.TakesOwnAnswers(run, steps) && IsCareful(run, steps, tab)
    ensures IsInTurn(run, steps, tab)
  {
    forall i | 0 <= i < |steps| ensures InTurn(run[i], Issued(steps[..i], tab), steps[i]) {
      RunKeepsFifo(run, steps, tab, i);
      D.RunKeepsInv(run, steps, i);
      CarefulIsInTurn(run[i], Issued(steps[..i], tab), Past(run, steps, i, tab), tab, steps[i]);
    }
  }

  /** In a careful run the device begins the writes of the tab in the order the tab issued them. */
  lemma CarefulRunsKeepOrder(run: seq<System>, steps: seq<Step>, tab: ClientId, i: nat, j: nat)
    requires D.IsRun(run, steps) && D.TakesOwnAnswers(run, steps) && IsCareful(run, steps, tab)
    requires i < j < |run[|steps|].log|
    requires run[|steps|].log[i].write.origin == run[|steps|].log[j].write.origin == tab
    ensures Earlier(Issued(steps, tab), run[|steps|].log[i].write, run[|steps|].log[j].write)
  {
    CarefulRunsAreInTurn(run, steps, tab);
    OrderIsKept(run, steps, tab, i, j);
  }
}
