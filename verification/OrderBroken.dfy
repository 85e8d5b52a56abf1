/**
 * The other half of module OrderSafety: what is out of turn there does break the order. From the state after
 * such a step the run can go on, without another step out of turn, until the log is reversed.
 */
module OrderBroken {
  import opened Basics
  import opened Delivery
  import P = PendingWrites
  import A = AcceptedWrites
  import D = DeliverySafety
  import opened OrderSafety

  // --- Paths ------------------------------------------------------------------------------------

  /** A path on which nothing is issued, and nothing is out of turn or taken for the wrong question. */
  ghost predicate IsCalm(run: seq<System>, steps: seq<Step>, o: seq<Write>) {
    && D.IsPath(run, steps)
    && D.TakesOwnAnswers(run, steps)
    && forall i :: 0 <= i < |steps| ==> InTurn(run[i], o, steps[i]) && !steps[i].Issue?
  }

  ghost predicate IsCalmPath(s: System, run: seq<System>, steps: seq<Step>, s': System, o: seq<Write>) {
    IsCalm(run, steps, o) && run[0] == s && run[|steps|] == s'
  }

  ghost predicate Reaches(s: System, o: seq<Write>, s': System) {
    exists run, steps :: IsCalmPath(s, run, steps, s', o)
  }

  lemma Here(s: System, o: seq<Write>)
    ensures Reaches(s, o, s)
  {
    assert IsCalmPath(s, [s], [], s, o);
  }

  lemma Then(s: System, o: seq<Write>, s1: System, step: Step)
    requires Reaches(s, o, s1) && Enabled(s1, step) && !step.Issue?
    requires InTurn(s1, o, step) && TakesOwnAnswer(s1, step)
    ensures Reaches(s, o, After(s1, step))
  {
    var run, steps :| IsCalmPath(s, run, steps, s1, o);
    var s2 := After(s1, step);
    PathGrows(s, o, run, steps, s1, step, s2);
  }

  lemma PathGrows(s: System, o: seq<Write>, run: seq<System>, steps: seq<Step>, s1: System, step: Step, s2: System)
    requires IsCalmPath(s, run, steps, s1, o) && Enabled(s1, step) && !step.Issue?
    requires InTurn(s1, o, step) && TakesOwnAnswer(s1, step) && s2 == After(s1, step)
    ensures IsCalmPath(s, run + [s2], steps + [step], s2, o)
  {
    var run', steps' := run + [s2], steps + [step];
    forall i | 0 <= i < |steps'|
      ensures Enabled(run'[i], steps'[i]) && run'[i + 1] == After(run'[i], steps'[i])
      ensures InTurn(run'[i], o, steps'[i]) && TakesOwnAnswer(run'[i], steps'[i]) && !steps'[i].Issue?
    {
      assert run'[i] == run[i];
      if i < |steps| {
        assert run'[i + 1] == run[i + 1] && steps'[i] == steps[i];
      }
    }
  }

  /** Only deliveries can be out of turn. */
  lemma ThenTerm(s: System, o: seq<Write>, s1: System, step: Step)
    requires Reaches(s, o, s1) && IsTermStep(step) && TermEnabled(s1, step)
    ensures Reaches(s, o, TermAfter(s1, step))
  {
    Then(s, o, s1, step);
  }

  lemma ThenHandOn(s: System, o: seq<Write>, s1: System, w: Write, h: P.Host)
    requires Reaches(s, o, s1) && Mine(s1, w)
    ensures Reaches(s, o, HandOver(s1, w, h))
  {
    Then(s, o, s1, HandOn(w, h));
  }

  lemma ThenLose(s: System, o: seq<Write>, s1: System, from: ClientId, to: ClientId)
    requires Reaches(s, o, s1) && Channel(s1, from, to) != []
    ensures Reaches(s, o, Popped(s1, from, to))
  {
    var c := Channel(s1, from, to);
    assert c[..0] + c[1..] == c[1..];
    Then(s, o, s1, Lose(from, to, 0));
  }

  const NO_HOST := P.Host(false, None, {})

  lemma ThenDeliver(s: System, o: seq<Write>, s1: System, from: ClientId, to: ClientId)
    requires Reaches(s, o, s1) && to !in s1.gone && Channel(s1, from, to) != []
    requires var step := Deliver(from, to, NO_HOST, false); InTurn(s1, o, step) && TakesOwnAnswer(s1, step)
    ensures Reaches(s, o, Receive(Popped(s1, from, to), from, to, Channel(s1, from, to)[0], NO_HOST, false))
  {
    Then(s, o, s1, Deliver(from, to, NO_HOST, false));
  }

  lemma {:induction false} DropFirst(s: System, o: seq<Write>, s1: System, from: ClientId, to: ClientId, n: nat)
    requires Reaches(s, o, s1) && n < |Channel(s1, from, to)|
    ensures Reaches(s, o, WithChannel(s1, from, to, Channel(s1, from, to)[n..]))
    decreases n
  {
    var c := Channel(s1, from, to);
    if n == 0 {
      assert c[0..] == c && s1.channels[(from, to) := c] == s1.channels;
    } else {
      var s2 := Popped(s1, from, to);
      ThenLose(s, o, s1, from, to);
      DropFirst(s, o, s2, from, to, n - 1);
      assert c[1..][n - 1..] == c[n..];
      assert WithChannel(s2, from, to, c[n..]) == WithChannel(s1, from, to, c[n..]);
    }
  }

  // --- A bound write is begun -------------------------------------------------------------------

  predicate HasLeave(s: System, w: Write, t: TermId) {
    Alive(s, t) && s.terms[t].running.Busy? && s.terms[t].running.write == w
    && s.terms[t].running.phase.Answered? && s.terms[t].running.phase.approved
  }

  predicate YesAt(s: System, w: Write, t: TermId, i: int) {
    && IsAsking(s, t, w) && Alive(s, t) && 0 <= i < |D.Up(s, w, t)|
    && D.IsYes(D.Up(s, w, t)[i], w, t, s.terms[t].running.phase.question)
  }

  /** The state once the yes at `i` has arrived, and what stood before it is lost. */
  function Arrived(s: System, w: Write, t: TermId, i: int): System
    requires YesAt(s, w, t, i)
  {
    var s1 := WithChannel(s, w.origin, s.terms[t].tab, D.Up(s, w, t)[i + 1..]);
    WithTerm(s1, t, s.terms[t].(running := Busy(w, Answered(true, s.terms[t].running.phase.question))))
  }

  lemma Arrives(s: System, o: seq<Write>, s1: System, w: Write, t: TermId, i: int)
    requires Reaches(s, o, s1) && YesAt(s1, w, t, i)
    ensures Reaches(s, o, Arrived(s1, w, t, i)) && HasLeave(Arrived(s1, w, t, i), w, t)
  {
    var c := D.Up(s1, w, t);
    var tab := s1.terms[t].tab;
    var s2 := WithChannel(s1, w.origin, tab, c[i..]);
    DropFirst(s, o, s1, w.origin, tab, i);
    assert Channel(s2, w.origin, tab) == c[i..] && c[i..][1..] == c[i + 1..];
    ThenDeliver(s, o, s2, w.origin, tab);
    assert WithChannel(s2, w.origin, tab, c[i + 1..]) == WithChannel(s1, w.origin, tab, c[i + 1..]);
  }

  function Opened(s: System, t: TermId): System
    requires t in s.terms
  {
    WithTerm(s, t, s.terms[t].(isOpen := true))
  }

  function BegunIn(s: System, w: Write, t: TermId): System
    requires t in s.terms
  {
    WithTerm(s, t, s.terms[t].(isOpen := true, running := Busy(w, Writing))).(log := s.log + [Begun(w, t)])
  }

  lemma Begins(s: System, o: seq<Write>, s1: System, w: Write, t: TermId)
    requires Reaches(s, o, s1) && HasLeave(s1, w, t)
    ensures Reaches(s, o, BegunIn(s1, w, t))
  {
    ThenTerm(s, o, s1, Connection(t, true));
    ThenTerm(s, o, Opened(s1, t), Conclude(t));
    assert TermAfter(Opened(s1, t), Conclude(t)) == BegunIn(s1, w, t);
  }

  lemma FindYes(s: System, w: Write, t: TermId) returns (i: int)
    requires Alive(s, t) && D.Committed(s, w, t) && !HasLeave(s, w, t)
    ensures YesAt(s, w, t, i)
  {
    i :| 0 <= i < |D.Up(s, w, t)| && D.IsYes(D.Up(s, w, t)[i], w, t, s.terms[t].running.phase.question);
  }

  lemma GetsLeave(s: System, o: seq<Write>, s1: System, w: Write, t: TermId) returns (s2: System)
    requires Reaches(s, o, s1) && Alive(s1, t) && D.Committed(s1, w, t)
    ensures Reaches(s, o, s2) && HasLeave(s2, w, t)
    ensures s2.log == s1.log && s2.pending == s1.pending && s2.gone == s1.gone
  {
    s2 := s1;
    if !HasLeave(s1, w, t) {
      var i := FindYes(s1, w, t);
      Arrives(s, o, s1, w, t, i);
      s2 := Arrived(s1, w, t, i);
    }
  }

  /** A bound write can be begun at once, while nothing else is. */
  lemma BoundIsBegun(s: System, o: seq<Write>, s1: System, w: Write) returns (s2: System, t: TermId)
    requires Reaches(s, o, s1) && Bound(s1, w)
    ensures Reaches(s, o, s2) && s2.log == s1.log + [Begun(w, t)]
    ensures s2.pending == s1.pending && s2.gone == s1.gone
  {
    t :| Alive(s1, t) && D.Committed(s1, w, t);
    s2 := GetsLeave(s, o, s1, w, t);
    Begins(s, o, s2, w, t);
    s2 := BegunIn(s2, w, t);
  }

  /** What the arrival of one yes leaves of another. */
  lemma OtherYesStays(s: System, w: Write, t: TermId, i: int, v: Write, t': TermId, j: int)
    requires YesAt(s, w, t, i) && YesAt(s, v, t', j) && t != t'
    requires w.origin == v.origin && s.terms[t].tab == s.terms[t'].tab ==> i < j
    ensures var same := w.origin == v.origin && s.terms[t].tab == s.terms[t'].tab;
            YesAt(Arrived(s, w, t, i), v, t', if same then j - i - 1 else j)
  {
  }

  /** Two bound writes have both got their leave, whatever lies between. */
  lemma BothGetLeave(s: System, o: seq<Write>, s1: System, w: Write, t: TermId, v: Write, t': TermId)
    returns (s2: System)
    requires Reaches(s, o, s1) && t != t'
    requires Alive(s1, t) && D.Committed(s1, w, t) && Alive(s1, t') && D.Committed(s1, v, t')
    ensures Reaches(s, o, s2) && HasLeave(s2, w, t) && HasLeave(s2, v, t') && s2.log == s1.log
  {
    if HasLeave(s1, w, t) {
      s2 := s1;
      if !HasLeave(s1, v, t') {
        var j := FindYes(s1, v, t');
        Arrives(s, o, s1, v, t', j);
        s2 := Arrived(s1, v, t', j);
      }
    } else if HasLeave(s1, v, t') {
      var i := FindYes(s1, w, t);
      Arrives(s, o, s1, w, t, i);
      s2 := Arrived(s1, w, t, i);
    } else {
      var i := FindYes(s1, w, t);
      var j := FindYes(s1, v, t');
      if D.Up(s1, w, t) == D.Up(s1, v, t') && j < i {
        s2 := InSequence(s, o, s1, v, t', j, w, t, i);
      } else {
        s2 := InSequence(s, o, s1, w, t, i, v, t', j);
      }
    }
  }

  lemma InSequence(s: System, o: seq<Write>, s1: System, w: Write, t: TermId, i: int, v: Write, t': TermId, j: int)
    returns (s2: System)
    requires Reaches(s, o, s1) && t != t' && YesAt(s1, w, t, i) && YesAt(s1, v, t', j)
    requires w.origin == v.origin && s1.terms[t].tab == s1.terms[t'].tab ==> i < j
    ensures Reaches(s, o, s2) && HasLeave(s2, w, t) && HasLeave(s2, v, t') && s2.log == s1.log
  {
    OtherYesStays(s1, w, t, i, v, t', j);
    Arrives(s, o, s1, w, t, i);
    var between := Arrived(s1, w, t, i);
    var j' := if w.origin == v.origin && s1.terms[t].tab == s1.terms[t'].tab then j - i - 1 else j;
    Arrives(s, o, between, v, t', j');
    s2 := Arrived(between, v, t', j');
  }

  // --- An unstarted write is begun --------------------------------------------------------------

  lemma {:induction false} Fresh(xs: set<int>) returns (n: int)
    ensures forall x :: x in xs ==> x < n
    decreases |xs|
  {
    if x :| x in xs {
      var m := Fresh(xs - {x});
      n := if m <= x then x + 1 else m;
      assert forall y :: y in xs ==> y == x || y in xs - {x};
    } else {
      n := 0;
    }
  }

  ghost function Tabs(s: System, o: seq<Write>): set<int> {
    s.gone + (set t | t in s.terms :: s.terms[t].tab) + (set w | w in o :: w.origin)
    + (set c | c in s.channels :: c.0) + (set c | c in s.channels :: c.1)
  }

  /** A tab and a term that have played no part. */
  ghost predicate AreNew(s: System, o: seq<Write>, u: Write, t: TermId, tab: ClientId) {
    && t !in s.terms && tab !in Tabs(s, o) && tab != u.origin
    && (u in s.pending ==> s.pending[u].addressedTerm != Some(t))
  }

  lemma FindNew(s: System, o: seq<Write>, u: Write) returns (t: TermId, tab: ClientId)
    ensures AreNew(s, o, u, t, tab)
  {
    var isAddressed := u in s.pending && s.pending[u].addressedTerm.Some?;
    var addressed := if isAddressed then {s.pending[u].addressedTerm.value} else {};
    t := Fresh(s.terms.Keys + addressed);
    tab := Fresh(Tabs(s, o) + {u.origin});
  }

  /** `s1` is `s` but for the write `u`, the new term, and what went between its tab and the issuer. */
  ghost predicate OnlyAdds(s: System, s1: System, u: Write, p: P.Pending, t: TermId, term: Term,
                           up: seq<Message>, down: seq<Message>) {
    && s1.log == s.log && s1.gone == s.gone
    && s1.terms == s.terms[t := term] && s1.pending == s.pending[u := p]
    && Channel(s1, u.origin, term.tab) == up && Channel(s1, term.tab, u.origin) == down
    && (forall a, b :: a != term.tab && b != term.tab ==> Channel(s1, a, b) == Channel(s, a, b))
  }

  lemma OthersStay(s: System, o: seq<Write>, s1: System, u: Write, p: P.Pending, t: TermId, term: Term,
                   up: seq<Message>, down: seq<Message>, v: Write)
    requires AreNew(s, o, u, t, term.tab) && OnlyAdds(s, s1, u, p, t, term, up, down) && v in o && v != u
    requires term.running.Busy? ==> term.running.write == u
    ensures Unstarted(s1, v) ==> Unstarted(s, v)
    ensures Bound(s1, v) ==> Bound(s, v)
  {
    if Bound(s1, v) {
      var x :| Alive(s1, x) && D.Committed(s1, v, x);
      assert x != t && s.terms[x].tab in Tabs(s, o);
      assert v.origin in Tabs(s, o);
      assert Alive(s, x) && D.Up(s1, v, x) == D.Up(s, v, x);
      assert D.Committed(s, v, x);
    }
  }

  function NewTerm(tab: ClientId, accepted: A.Record<Write>, waiting: seq<Write>, running: Running): Term {
    Term(tab, true, true, accepted, waiting, running)
  }

  lemma NewTermActs(s: System, s1: System, u: Write, p: P.Pending, t: TermId, term: Term,
                    up: seq<Message>, down: seq<Message>, term': Term)
    requires OnlyAdds(s, s1, u, p, t, term, up, down) && term'.tab == term.tab
    ensures OnlyAdds(s, WithTerm(s1, t, term'), u, p, t, term', up, down)
  {
    assert s.terms[t := term][t := term'] == s.terms[t := term'];
  }

  lemma IsHandedToNew(s: System, o: seq<Write>, s1: System, u: Write, t: TermId, tab: ClientId) returns (s2: System)
    requires Reaches(s, o, s1) && Unstarted(s1, u) && AreNew(s1, o, u, t, tab)
    ensures Reaches(s, o, s2)
    ensures OnlyAdds(s1, s2, u, P.Pending(None, Some(t), true), t, NewTerm(tab, A.Empty(), [], Idle),
                     [Request(u.request, t)], [])
  {
    s2 := IsReady(s, o, s1, u, t, tab);
    var addressed := s1.pending[u].addressedTerm;
    var h := P.Host(true, Some(t), if addressed.Some? then {addressed.value} else {});
    assert P.HandOn(s2.pending[u], h) == P.Pending(None, Some(t), true);
    ThenHandOn(s, o, s2, u, h);
    var s3 := s2.(pending := s2.pending[u := P.Pending(None, Some(t), true)]);
    assert HandOver(s2, u, h) == Send(s3, u.origin, tab, Request(u.request, t));
    s2 := Send(s3, u.origin, tab, Request(u.request, t));
  }

  lemma IsReady(s: System, o: seq<Write>, s1: System, u: Write, t: TermId, tab: ClientId) returns (s2: System)
    requires Reaches(s, o, s1) && Unstarted(s1, u) && AreNew(s1, o, u, t, tab)
    ensures Reaches(s, o, s2)
    ensures OnlyAdds(s1, s2, u, s1.pending[u], t, NewTerm(tab, A.Empty(), [], Idle), [], [])
  {
    var term := Term(tab, true, false, A.Empty(), [], Idle);
    assert Channel(s1, u.origin, tab) == Channel(s1, tab, u.origin) == [];
    ThenTerm(s, o, s1, StartTerm(t, tab));
    s2 := WithTerm(s1, t, term);
    assert OnlyAdds(s1, s2, u, s1.pending[u], t, term, [], []) by {
      assert s1.pending[u := s1.pending[u]] == s1.pending;
    }
    ThenTerm(s, o, s2, Connection(t, true));
    NewTermActs(s1, s2, u, s1.pending[u], t, term, [], [], NewTerm(tab, A.Empty(), [], Idle));
    s2 := TermAfter(s2, Connection(t, true));
  }

  lemma IsAdmittedByNew(s: System, o: seq<Write>, s1: System, u: Write, t: TermId, tab: ClientId) returns (s2: System)
    requires Reaches(s, o, s1) && Unstarted(s1, u) && AreNew(s1, o, u, t, tab)
    ensures Reaches(s, o, s2)
    ensures OnlyAdds(s1, s2, u, P.Pending(None, Some(t), true), t,
                     NewTerm(tab, A.AfterAdmit(A.Empty(), u), [u], Idle), [], [])
  {
    var p := P.Pending(None, Some(t), true);
    s2 := IsHandedToNew(s, o, s1, u, t, tab);
    ThenDeliver(s, o, s2, u.origin, tab);
    var s3 := Popped(s2, u.origin, tab);
    assert OnlyAdds(s1, s3, u, p, t, NewTerm(tab, A.Empty(), [], Idle), [], []);
    var term := NewTerm(tab, A.AfterAdmit(A.Empty(), u), [u], Idle);
    NewTermActs(s1, s3, u, p, t, s3.terms[t], [], [], term);
    assert [Request(u.request, t)][1..] == [] && [] + [u] == [u];
    assert Write(u.origin, u.request) == u && !A.Empty().Knows(u);
    assert TakeRequest(s3, u, t, false) == WithTerm(s3, t, term);
    s2 := WithTerm(s3, t, term);
  }

  lemma IsStartedByNew(s: System, o: seq<Write>, s1: System, u: Write, t: TermId, tab: ClientId) returns (s2: System)
    requires Reaches(s, o, s1) && Unstarted(s1, u) && AreNew(s1, o, u, t, tab)
    ensures Reaches(s, o, s2)
    ensures OnlyAdds(s1, s2, u, P.Pending(None, Some(t), true), t,
                     NewTerm(tab, A.AfterAdmit(A.Empty(), u), [], Busy(u, Next)), [], [])
  {
    s2 := IsAdmittedByNew(s, o, s1, u, t, tab);
    ThenTerm(s, o, s2, StartJob(t));
    var term := NewTerm(tab, A.AfterAdmit(A.Empty(), u), [], Busy(u, Next));
    NewTermActs(s1, s2, u, P.Pending(None, Some(t), true), t, s2.terms[t], [], [], term);
    assert [u][1..] == [];
    assert TermAfter(s2, StartJob(t)) == WithTerm(s2, t, term);
    s2 := WithTerm(s2, t, term);
  }

  lemma IsAskedByNew(s: System, o: seq<Write>, s1: System, u: Write, t: TermId, tab: ClientId)
    returns (s2: System, q: int)
    requires Reaches(s, o, s1) && Unstarted(s1, u) && AreNew(s1, o, u, t, tab)
    ensures Reaches(s, o, s2)
    ensures OnlyAdds(s1, s2, u, P.Pending(None, Some(t), true), t,
                     NewTerm(tab, A.AfterAdmit(A.Empty(), u), [], Busy(u, Asking(q))), [], [Ready(u.request, t, q)])
  {
    s2 := IsStartedByNew(s, o, s1, u, t, tab);
    q := s2.asked;
    ThenTerm(s, o, s2, Ask(t));
    var term := NewTerm(tab, A.AfterAdmit(A.Empty(), u), [], Busy(u, Asking(q)));
    NewTermActs(s1, s2, u, P.Pending(None, Some(t), true), t, s2.terms[t], [], [], term);
    var s3 := WithTerm(s2, t, term).(asked := q + 1);
    assert TermAfter(s2, Ask(t)) == Send(s3, tab, u.origin, Ready(u.request, t, q));
    s2 := Send(s3, tab, u.origin, Ready(u.request, t, q));
  }

  /** An unstarted write that no earlier one can follow is begun, in turn, in a new term. */
  lemma UnstartedIsBegun(s: System, o: seq<Write>, s1: System, u: Write) returns (s2: System, t: TermId)
    requires Reaches(s, o, s1) && Unstarted(s1, u) && NoneAhead(s1, o, u)
    requires forall v :: Earlier(o, v, u) ==> v != u
    ensures Reaches(s, o, s2) && s2.log == s1.log + [Begun(u, t)]
  {
    var tab, q;
    t, tab := FindNew(s1, o, u);
    s2, q := IsAskedByNew(s, o, s1, u, t, tab);
    forall v | Earlier(o, v, u) ensures !Unstarted(s2, v) && !Bound(s2, v) {
      OthersStay(s1, o, s2, u, P.Pending(None, Some(t), true), t, s2.terms[t], [], [Ready(u.request, t, q)], v);
    }
    s2 := IsLetBegin(s, o, s2, u, t, q);
    YesIsTaken(s, o, s2, u, t);
    s2 := BegunIn(Arrived(s2, u, t, 0), u, t);
  }

  lemma IsLetBegin(s: System, o: seq<Write>, s1: System, u: Write, t: TermId, q: int) returns (s2: System)
    requires Reaches(s, o, s1) && IsAsking(s1, t, u) && s1.terms[t].running.phase.question == q && Alive(s1, t)
    requires Unstarted(s1, u) && P.MayBegin(s1.pending[u], t) && NoneAhead(s1, o, u)
    requires D.Up(s1, u, t) == [] && D.Down(s1, u, t) == [Ready(u.request, t, q)]
    requires s1.terms[t].tab != u.origin
    ensures Reaches(s, o, s2) && YesAt(s2, u, t, 0) && s2.log == s1.log
  {
    var tab := s1.terms[t].tab;
    ThenDeliver(s, o, s1, tab, u.origin);
    s2 := AnswerQuestion(Popped(s1, tab, u.origin), u, t, q, tab);
    assert D.Up(s2, u, t) == [] + [Approval(u.request, t, true, q)];
  }

  lemma YesIsTaken(s: System, o: seq<Write>, s1: System, u: Write, t: TermId)
    requires Reaches(s, o, s1) && YesAt(s1, u, t, 0)
    ensures Reaches(s, o, BegunIn(Arrived(s1, u, t, 0), u, t))
  {
    Arrives(s, o, s1, u, t, 0);
    Begins(s, o, Arrived(s1, u, t, 0), u, t);
  }

  // --- The converse -----------------------------------------------------------------------------

  lemma LogIsReversed(log: seq<Begun>, o: seq<Write>, v: Write, w: Write, t: TermId)
    requires Earlier(o, v, w) && D.EverBegun(log, w)
    ensures !InOrder(log + [Begun(v, t)], o)
  {
    var i :| 0 <= i < |log| && log[i].write == w;
    var log' := log + [Begun(v, t)];
    assert log'[i].write == w && log'[|log|].write == v;
  }

  /** The first of the writes of `o` that are unstarted. */
  lemma {:induction false} FirstUnstarted(s: System, o: seq<Write>, k: nat) returns (i: nat)
    requires k < |o| && Unstarted(s, o[k])
    ensures i <= k && Unstarted(s, o[i]) && forall j :: 0 <= j < i ==> !Unstarted(s, o[j])
  {
    i := 0;
    while !Unstarted(s, o[i])
      invariant i <= k && forall j :: 0 <= j < i ==> !Unstarted(s, o[j])
      decreases k - i
    {
      i := i + 1;
    }
  }

  /** A later write has been begun, and an earlier one can still be. */
  lemma BegunIsFollowed(s: System, o: seq<Write>, s1: System, v: Write, w: Write) returns (s2: System)
    requires Reaches(s, o, s1) && NoDuplicates(o) && Earlier(o, v, w)
    requires D.EverBegun(s1.log, w) && (Unstarted(s1, v) || Bound(s1, v))
    ensures Reaches(s, o, s2) && !InOrder(s2.log, o)
  {
    var t;
    if x :| Earlier(o, x, w) && Bound(s1, x) {
      s2, t := BoundIsBegun(s, o, s1, x);
      LogIsReversed(s1.log, o, x, w, t);
    } else {
      var k, m :| 0 <= k < m < |o| && o[k] == v && o[m] == w;
      var i := FirstUnstarted(s1, o, k);
      assert Earlier(o, o[i], w);
      forall x | Earlier(o, x, o[i]) ensures x != o[i] && !Unstarted(s1, x) && !Bound(s1, x) {
        var a, b :| 0 <= a < b < |o| && o[a] == x && o[b] == o[i];
        assert b == i && Earlier(o, x, w);
      }
      s2, t := UnstartedIsBegun(s, o, s1, o[i]);
      LogIsReversed(s1.log, o, o[i], w, t);
    }
  }

  /** Where an earlier write can still be begun although a later one has been, or may be, the order is lost. */
  lemma OrderIsLost(s: System, o: seq<Write>, v: Write, w: Write) returns (s': System)
    requires NoDuplicates(o) && Earlier(o, v, w)
    requires D.EverBegun(s.log, w) || Bound(s, w)
    requires Unstarted(s, v) || Bound(s, v)
    ensures Reaches(s, o, s') && !InOrder(s'.log, o)
  {
    Here(s, o);
    if D.EverBegun(s.log, w) {
      s' := BegunIsFollowed(s, o, s, v, w);
    } else if Unstarted(s, v) {
      var s1, t := BoundIsBegun(s, o, s, w);
      assert s1.log[|s.log|].write == w;
      s' := BegunIsFollowed(s, o, s1, v, w);
    } else {
      var t :| Alive(s, t) && D.Committed(s, w, t);
      var t' :| Alive(s, t') && D.Committed(s, v, t');
      EarlierIsAntisymmetric(o, v, w);
      var s1 := BothGetLeave(s, o, s, w, t, v, t');
      Begins(s, o, s1, w, t);
      var s2 := BegunIn(s1, w, t);
      Begins(s, o, s2, v, t');
      s' := BegunIn(s2, v, t');
      assert s2.log[|s.log|].write == w;
      LogIsReversed(s2.log, o, v, w, t');
    }
  }

  lemma SendKeepsBound(s: System, from: ClientId, to: ClientId, m: Message, v: Write)
    requires Bound(s, v)
    ensures Bound(Send(s, from, to, m), v)
  {
    var t :| Alive(s, t) && D.Committed(s, v, t);
    var c := Channel(s, from, to);
    assert forall i :: 0 <= i < |c| ==> (c + [m])[i] == c[i];
    assert Alive(Send(s, from, to, m), t) && D.Committed(Send(s, from, to, m), v, t);
  }

  lemma ReceiptKeepsBound(s: System, from: ClientId, to: ClientId, v: Write)
    requires Bound(s, v) && Channel(s, from, to) != [] && !Channel(s, from, to)[0].Approval?
    ensures Bound(WithChannel(s, from, to, Channel(s, from, to)[1..]), v)
  {
    var t :| Alive(s, t) && D.Committed(s, v, t);
    var c := Channel(s, from, to);
    var s' := WithChannel(s, from, to, c[1..]);
    assert forall i :: 0 < i < |c| ==> c[1..][i - 1] == c[i];
    assert Alive(s', t) && D.Committed(s', v, t);
  }

  /** Saying yes binds the write, and frees no other. */
  lemma AfterApproval(s: System, step: Step, w: Write, t: TermId, v: Write)
    requires Enabled(s, step) && Approves(s, step, w, t) && v != w
    ensures Bound(After(s, step), w) && After(s, step).log == s.log
    ensures Unstarted(s, v) ==> Unstarted(After(s, step), v)
    ensures Bound(s, v) ==> Bound(After(s, step), v)
  {
    var c := Channel(s, step.from, step.to);
    var s0 := WithChannel(s, step.from, step.to, c[1..]);
    var q := s.terms[t].running.phase.question;
    var s1 := s0.(pending := s0.pending[w := P.LetBegin(s0.pending[w], t)]);
    var up := D.Up(s1, w, t);
    var yes := Approval(w.request, t, true, q);
    assert After(s, step) == Send(s1, w.origin, step.from, yes);
    assert (up + [yes])[|up|] == yes;
    assert Alive(After(s, step), t) && D.Committed(After(s, step), w, t);
    if Bound(s, v) {
      ReceiptKeepsBound(s, step.from, step.to, v);
      SameTermsSameBound(s0, s1, v);
      SendKeepsBound(s1, w.origin, step.from, yes, v);
    }
  }

  /** Taking a write back makes it unstarted, and frees no other. */
  lemma AfterTakingBack(s: System, step: Step, w: Write, t: TermId, x: Write)
    requires Enabled(s, step) && TakesBack(s, step, w, t)
    ensures Unstarted(After(s, step), w) && After(s, step).log == s.log
    ensures Bound(s, x) ==> Bound(After(s, step), x)
  {
    var c := Channel(s, step.from, step.to);
    var s0 := WithChannel(s, step.from, step.to, c[1..]);
    var s1 := s0.(pending := s0.pending[w := P.HandBack(s0.pending[w])]);
    var h := step.host;
    assert After(s, step) == HandOver(s1, w, h);
    if Bound(s, x) {
      ReceiptKeepsBound(s, step.from, step.to, x);
      var s2 := s1.(pending := s1.pending[w := P.HandOn(s1.pending[w], h)]);
      SameTermsSameBound(s0, s2, x);
      if P.MayHandOn(s1.pending[w], h) && h.currentTerm.value in s.terms {
        var to := s.terms[h.currentTerm.value].tab;
        SendKeepsBound(s2, w.origin, to, Request(w.request, h.currentTerm.value), x);
      }
    }
  }

  /** Whatever is out of turn can be followed, in turn, by a reversal of the order. */
  lemma OutOfTurnLosesOrder(s: System, o: seq<Write>, step: Step) returns (s': System)
    requires Enabled(s, step) && NoDuplicates(o) && !InTurn(s, o, step)
    ensures Reaches(After(s, step), o, s') && !InOrder(s'.log, o)
  {
    var s1 := After(s, step);
    if w, t :| w in o && TakesBack(s, step, w, t) && !NoneBehind(s, o, w) {
      var x :| Earlier(o, w, x) && (D.EverBegun(s.log, x) || Bound(s, x));
      AfterTakingBack(s, step, w, t, x);
      s' := OrderIsLost(s1, o, w, x);
    } else {
      var w, t :| w in o && Approves(s, step, w, t)
                  && !(NoneAhead(s, o, w) && (s.pending[w].startedTerm.Some? ==> NoneBehind(s, o, w)));
      s' := ApprovalLosesOrder(s, o, step, w, t);
    }
  }

  lemma PathToLostOrder(s: System, o: seq<Write>, step: Step) returns (run: seq<System>, steps: seq<Step>)
    requires Enabled(s, step) && NoDuplicates(o) && !InTurn(s, o, step)
    ensures D.IsPath(run, steps) && D.TakesOwnAnswers(run, steps) && run[0] == After(s, step)
    ensures forall i :: 0 <= i < |steps| ==> InTurn(run[i], o, steps[i]) && !steps[i].Issue?
    ensures !InOrder(run[|steps|].log, o)
  {
    var s' := OutOfTurnLosesOrder(s, o, step);
    run, steps :| IsCalmPath(After(s, step), run, steps, s', o);
  }

  lemma ApprovalLosesOrder(s: System, o: seq<Write>, step: Step, w: Write, t: TermId) returns (s': System)
    requires Enabled(s, step) && NoDuplicates(o) && Approves(s, step, w, t)
    requires !NoneAhead(s, o, w) || !NoneBehind(s, o, w)
    ensures Reaches(After(s, step), o, s') && !InOrder(s'.log, o)
  {
    var s1 := After(s, step);
    if v :| Earlier(o, v, w) && (Unstarted(s, v) || Bound(s, v)) {
      EarlierIsAntisymmetric(o, v, w);
      AfterApproval(s, step, w, t, v);
      s' := OrderIsLost(s1, o, v, w);
    } else {
      var x :| Earlier(o, w, x) && (D.EverBegun(s.log, x) || Bound(s, x));
      EarlierIsAntisymmetric(o, w, x);
      AfterApproval(s, step, w, t, x);
      s' := OrderIsLost(s1, o, w, x);
    }
  }

  lemma {:induction false} NothingIssued(steps: seq<Step>, more: seq<Step>, tab: ClientId)
    requires forall i :: 0 <= i < |more| ==> !more[i].Issue?
    ensures Issued(steps + more, tab) == Issued(steps, tab)
  {
    if more == [] {
      assert steps + [] == steps;
    } else {
      var n := |more| - 1;
      assert (steps + more)[..|steps| + n] == steps + more[..n];
      NothingIssued(steps, more[..n], tab);
    }
  }

  /** One path after another, joined by a step. */
  lemma PathsJoin(run: seq<System>, steps: seq<Step>, step: Step, run2: seq<System>, steps2: seq<Step>)
    requires D.IsPath(run, steps) && D.TakesOwnAnswers(run, steps)
    requires D.IsPath(run2, steps2) && D.TakesOwnAnswers(run2, steps2)
    requires Enabled(run[|steps|], step) && TakesOwnAnswer(run[|steps|], step) && run2[0] == After(run[|steps|], step)
    ensures D.IsPath(run + run2, steps + [step] + steps2) && D.TakesOwnAnswers(run + run2, steps + [step] + steps2)
  {
    var run', steps' := run + run2, steps + [step] + steps2;
    var n := |steps|;
    forall i | 0 <= i < |steps'|
      ensures Enabled(run'[i], steps'[i]) && run'[i + 1] == After(run'[i], steps'[i])
      ensures TakesOwnAnswer(run'[i], steps'[i])
    {
      if i < n {
        assert run'[i] == run[i] && run'[i + 1] == run[i + 1] && steps'[i] == steps[i];
      } else if i > n {
        assert run'[i] == run2[i - n - 1] && run'[i + 1] == run2[i - n] && steps'[i] == steps2[i - n - 1];
      }
    }
  }

  lemma RestIsInTurn(run: seq<System>, steps: seq<Step>, step: Step, run2: seq<System>, steps2: seq<Step>,
                     tab: ClientId)
    requires |run| == |steps| + 1 && |run2| == |steps2| + 1 && IsInTurn(run, steps, tab) && !step.Issue?
    requires forall k :: 0 <= k < |steps2| ==> InTurn(run2[k], Issued(steps, tab), steps2[k]) && !steps2[k].Issue?
    ensures var run', steps' := run + run2, steps + [step] + steps2;
            && Issued(steps', tab) == Issued(steps, tab)
            && forall i :: 0 <= i < |steps'| && i != |steps| ==> InTurn(run'[i], Issued(steps'[..i], tab), steps'[i])
  {
    var run', steps' := run + run2, steps + [step] + steps2;
    var n := |steps|;
    assert steps' == steps + ([step] + steps2);
    NothingIssued(steps, [step] + steps2, tab);
    forall i | 0 <= i < |steps'| && i != n ensures InTurn(run'[i], Issued(steps'[..i], tab), steps'[i]) {
      if i < n {
        assert steps'[..i] == steps[..i] && run'[i] == run[i] && steps'[i] == steps[i];
      } else {
        var k := i - n - 1;
        assert run'[i] == run2[k] && steps'[i] == steps2[k];
        assert steps'[..i] == steps + ([step] + steps2[..k]);
        NothingIssued(steps, [step] + steps2[..k], tab);
      }
    }
  }

  lemma IssuedOnce(run: seq<System>, steps: seq<Step>, tab: ClientId)
    requires D.IsRun(run, steps) && D.TakesOwnAnswers(run, steps) && IsInTurn(run, steps, tab)
    ensures NoDuplicates(Issued(steps, tab))
  {
    RunKeepsTurn(run, steps, tab, |steps|);
    assert steps[..|steps|] == steps;
  }

  /**
   * The converse of `OrderIsKept`: after any one step out of turn a run can go on, in turn from then on, until
   * the device has begun a later write before an earlier one.
   */
  lemma OneStepOutOfTurnIsEnough(run: seq<System>, steps: seq<Step>, tab: ClientId, step: Step)
    returns (run': seq<System>, steps': seq<Step>)
    requires D.IsRun(run, steps) && D.TakesOwnAnswers(run, steps) && IsInTurn(run, steps, tab)
    requires Enabled(run[|steps|], step) && TakesOwnAnswer(run[|steps|], step)
    requires !InTurn(run[|steps|], Issued(steps, tab), step)
    ensures D.IsRun(run', steps') && D.TakesOwnAnswers(run', steps')
    ensures |steps| < |steps'| && steps'[..|steps|] == steps && steps'[|steps|] == step
    ensures forall i :: 0 <= i < |steps'| && i != |steps| ==> InTurn(run'[i], Issued(steps'[..i], tab), steps'[i])
    ensures !InOrder(run'[|steps'|].log, Issued(steps', tab))
  {
    var o := Issued(steps, tab);
    IssuedOnce(run, steps, tab);
    var run2, steps2 := PathToLostOrder(run[|steps|], o, step);
    run', steps' := run + run2, steps + [step] + steps2;
    PathsJoin(run, steps, step, run2, steps2);
    RestIsInTurn(run, steps, step, run2, steps2, tab);
    assert run'[|steps'|] == run2[|steps2|];
  }
}
