/**
 * A yes taken for a later question than the one it answers, in general: exactly when it leaves the invariant of
 * module DeliverySafety standing, and the states from which it leads to a broken promise.
 */
module LateYes {
  import opened Basics
  import opened Delivery
  import D = DeliverySafety
  import opened OrderSafety
  import opened OrderBroken

  /** Taking the yes begins no write that is not counted as begun by `t`, may come again, or is `t`'s alone. */
  ghost predicate IsHarmless(s: System, w: Write, t: TermId)
    requires t in s.terms
  {
    && D.CountedAsBegun(s, w, t)
    && D.NoRequest(D.Up(s, w, t), w, t)
    && forall t' :: t' in s.terms && D.Hot(s, w, t') ==> t' == t
  }

  /**
   * The invariant survives a yes to any question exactly if the write is counted, asked for once, and hot nowhere
   * else.
   */
  lemma LateYesKeepsInv(s: System, w: Write, t: TermId, late: int)
    requires D.Inv(s) && IsAsking(s, t, w)
    ensures D.Inv(TakeApproval(s, w, t, true, late)) <==> IsHarmless(s, w, t)
  {
    var s' := TakeApproval(s, w, t, true, late);
    if D.Inv(s') {
      assert D.Committed(s', w, t) && D.Local(s', w, t);
      forall t' | t' in s.terms && D.Hot(s, w, t') ensures t' == t {
        if t' != t {
          assert D.Hot(s', w, t') && D.Exclusive(s', w, t, t');
        }
      }
    } else if IsHarmless(s, w, t) {
      D.TakeApprovalKeepsInv(s, w, t, true, late);
    }
  }

  // --- Broken promises --------------------------------------------------------------------------

  /** Begun twice, or begun although its issuer counts it as not begun or has told its caller so. */
  ghost predicate IsBroken(s: System, w: Write) {
    || (exists i, j :: 0 <= i < j < |s.log| && s.log[i].write == s.log[j].write == w)
    || (D.EverBegun(s.log, w) && w in s.pending && s.pending[w].startedTerm.None?)
    || (D.EverBegun(s.log, w) && w in s.settled && PromisesUnwritten(s.settled[w]))
  }

  /** Its issuer counts the write as not begun, or will once it hears what is on its way; or another term begins it. */
  ghost predicate MayBreak(s: System, w: Write, t: TermId)
    requires t in s.terms
  {
    || (w in s.pending && s.pending[w].startedTerm.None?)
    || (w in s.settled && PromisesUnwritten(s.settled[w]))
    || (Mine(s, w) && s.pending[w].addressedTerm == Some(t) && !D.NoUnbegun(D.Down(s, w, t), w, t))
    || D.EverBegun(s.log, w)
    || (exists t' :: t' != t && Alive(s, t') && D.Committed(s, w, t'))
  }

  lemma BegunIsBroken(s: System, o: seq<Write>, s1: System, w: Write, t: TermId) returns (s': System)
    requires Reaches(s, o, s1) && HasLeave(s1, w, t)
    requires || (w in s1.pending && s1.pending[w].startedTerm.None?)
             || (w in s1.settled && PromisesUnwritten(s1.settled[w]))
             || D.EverBegun(s1.log, w)
    ensures Reaches(s, o, s') && IsBroken(s', w)
  {
    Begins(s, o, s1, w, t);
    s' := BegunIn(s1, w, t);
    assert s'.log[|s1.log|] == Begun(w, t);
    if i :| 0 <= i < |s1.log| && s1.log[i].write == w {
      assert s'.log[i].write == w;
    }
  }

  /** Begun, and then its issuer hears that it was not. */
  lemma HeardAsUnbegun(s: System, s1: System, w: Write, t: TermId, at: nat) returns (s': System)
    requires Reaches(s, [], s1) && HasLeave(s1, w, t) && Mine(s1, w) && s1.pending[w].addressedTerm == Some(t)
    requires at < |D.Down(s1, w, t)| && D.IsUnbegun(D.Down(s1, w, t)[at], w, t)
    ensures Reaches(s, [], s') && IsBroken(s', w)
  {
    Begins(s, [], s1, w, t);
    var s2 := BegunIn(s1, w, t);
    assert s2.log[|s1.log|] == Begun(w, t);
    var tab := s1.terms[t].tab;
    var down := D.Down(s1, w, t);
    DropFirst(s, [], s2, tab, w.origin, at);
    var s3 := WithChannel(s2, tab, w.origin, down[at..]);
    ThenDeliver(s, [], s3, tab, w.origin);
    s' := TakeResult(Popped(s3, tab, w.origin), w, t, down[at].outcome, NO_HOST);
  }

  /** Two terms have leave to begin it, and both do. */
  lemma BothBegin(s: System, o: seq<Write>, s1: System, w: Write, t: TermId, t': TermId) returns (s': System)
    requires Reaches(s, o, s1) && t != t' && HasLeave(s1, w, t) && Alive(s1, t') && D.Committed(s1, w, t')
    ensures Reaches(s, o, s') && IsBroken(s', w)
  {
    var s2 := BothGetLeave(s, o, s1, w, t, w, t');
    Begins(s, o, s2, w, t);
    var s3 := BegunIn(s2, w, t);
    Begins(s, o, s3, w, t');
    s' := BegunIn(s3, w, t');
    assert s'.log[|s2.log|].write == w && s'.log[|s2.log| + 1].write == w;
  }

  /**
   * Wherever a yes to an earlier question stands next in line and `MayBreak` holds of what is left, taking it
   * can lead to a broken promise, every later yes being taken for its own question.
   */
  lemma LateYesBreaksThePromise(s: System, w: Write, t: TermId, late: int) returns (s': System)
    requires IsAsking(s, t, w) && Alive(s, t) && s.terms[t].running.phase.question != late
    requires D.Up(s, w, t) != [] && D.Up(s, w, t)[0] == Approval(w.request, t, true, late)
    requires MayBreak(Popped(s, w.origin, s.terms[t].tab), w, t)
    ensures var step := Deliver(w.origin, s.terms[t].tab, NO_HOST, false);
            && Enabled(s, step) && !TakesOwnAnswer(s, step)
            && Reaches(After(s, step), [], s') && IsBroken(s', w)
  {
    var s0 := Popped(s, w.origin, s.terms[t].tab);
    var s1 := TakeApproval(s0, w, t, true, late);
    Here(s1, []);
    if (w in s0.pending && s0.pending[w].startedTerm.None?) || (w in s0.settled && PromisesUnwritten(s0.settled[w]))
       || D.EverBegun(s0.log, w) {
      s' := BegunIsBroken(s1, [], s1, w, t);
    } else if Mine(s0, w) && s0.pending[w].addressedTerm == Some(t) && !D.NoUnbegun(D.Down(s0, w, t), w, t) {
      var at :| 0 <= at < |D.Down(s0, w, t)| && D.IsUnbegun(D.Down(s0, w, t)[at], w, t);
      s' := HeardAsUnbegun(s1, s1, w, t, at);
    } else {
      var t' :| t' != t && Alive(s0, t') && D.Committed(s0, w, t');
      assert D.Committed(s1, w, t');
      s' := BothBegin(s1, [], s1, w, t, t');
    }
  }
}
