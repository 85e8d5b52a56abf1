/**
 * The writes one tab has issued and still waits on: `PendingWrites` of `src/client/pending-writes.ts`.
 *
 * What one event does to one write is a function on values; the class applies it to its records in
 * the order they were issued. The delivery protocol (module Delivery) is built on the same functions.
 */
module PendingWrites {
  import opened Basics

  datatype Pending = Pending(startedTerm: Option<TermId>, addressedTerm: Option<TermId>, isDispatched: bool)
  {
    /** Only the addressed term is ever let begin a write, and only an addressed write is with a term. */
    predicate Valid() {
      && (startedTerm.Some? ==> addressedTerm == startedTerm)
      && (isDispatched ==> addressedTerm.Some?)
    }
  }

  /** The answers of the host: `canDispatch`, `currentTerm`, and the terms `isTermEnded` says yes to. */
  datatype Host = Host(canDispatch: bool, currentTerm: Option<TermId>, ended: set<TermId>)

  const FRESH := Pending(None, None, false)

  /** The guard of `#dispatch`. */
  predicate MayHandOn(p: Pending, h: Host) {
    && p.startedTerm.None?
    && h.canDispatch
    && h.currentTerm.Some?
    && !(p.isDispatched && p.addressedTerm == h.currentTerm)
    && (p.addressedTerm.None? || p.addressedTerm == h.currentTerm || p.addressedTerm.value in h.ended)
  }

  function HandOn(p: Pending, h: Host): Pending {
    if MayHandOn(p, h) then p.(isDispatched := true, addressedTerm := h.currentTerm) else p
  }

  /** Whether `resendUnstarted` takes a write back before it is handed on again. */
  predicate MayTakeBack(p: Pending, h: Host) {
    && p.startedTerm.None?
    && (p.addressedTerm.None? || p.addressedTerm == h.currentTerm || p.addressedTerm.value in h.ended)
  }

  function TakeBack(p: Pending, h: Host): Pending {
    if MayTakeBack(p, h) then p.(isDispatched := false) else p
  }

  predicate MayBegin(p: Pending, t: TermId) { p.addressedTerm == Some(t) }

  function LetBegin(p: Pending, t: TermId): Pending {
    if MayBegin(p, t) && p.startedTerm.None? then p.(startedTerm := Some(t)) else p
  }

  /** `NOT_CONNECTED` from the addressed term undoes the approval and hands the write back. */
  function HandBack(p: Pending): Pending { p.(startedTerm := None, isDispatched := false) }

  /** The outcome the tab's own deadline gives a write. */
  function OnDeadline(p: Pending): Outcome { Timeout(p.startedTerm.Some?) }

  // --- Laws of one write ------------------------------------------------------------------------

  /**
   * A write moves to another term only while it has not started and the term it was with has ended;
   * handing on never touches a started write and never hands the same write over twice.
   */
  lemma HandOnIsSafe(p: Pending, h: Host)
    requires p.Valid()
    ensures HandOn(p, h).Valid() && HandOn(p, h).startedTerm == p.startedTerm
    ensures HandOn(p, h).addressedTerm != p.addressedTerm ==>
              && p.startedTerm.None?
              && (p.addressedTerm.Some? ==> p.addressedTerm.value in h.ended)
    ensures !MayHandOn(HandOn(p, h), h)
    ensures MayHandOn(p, h) <==> HandOn(p, h) != p
  {
  }

  // --- Many writes ------------------------------------------------------------------------------

  /** One record of the tracker's map; the records stand in the order they were inserted. */
  datatype Entry = Entry(request: RequestId, pending: Pending)

  ghost predicate Distinct(entries: seq<Entry>) {
    forall i, j :: 0 <= i < j < |entries| ==> entries[i].request != entries[j].request
  }

  ghost predicate Has(entries: seq<Entry>, r: RequestId) {
    exists i :: 0 <= i < |entries| && entries[i].request == r
  }

  /** `HandOn` on every record, and `TakeBack` on every record. */
  function AllHandedOn(entries: seq<Entry>, h: Host): seq<Entry> {
    seq(|entries|, i requires 0 <= i < |entries| => entries[i].(pending := HandOn(entries[i].pending, h)))
  }

  function AllTakenBack(entries: seq<Entry>, h: Host): seq<Entry> {
    seq(|entries|, i requires 0 <= i < |entries| => entries[i].(pending := TakeBack(entries[i].pending, h)))
  }

  /** One call of `host.dispatch`. */
  datatype Call = Call(request: RequestId, term: TermId)

  function HandOver(e: Entry, h: Host): seq<Call> {
    if MayHandOn(e.pending, h) then [Call(e.request, h.currentTerm.value)] else []
  }

  /** The calls that handing on all of `entries` makes. */
  function HandOvers(entries: seq<Entry>, h: Host): seq<Call> {
    if entries == [] then [] else HandOver(entries[0], h) + HandOvers(entries[1..], h)
  }

  lemma {:induction false} HandOversSnoc(entries: seq<Entry>, e: Entry, h: Host)
    ensures HandOvers(entries + [e], h) == HandOvers(entries, h) + HandOver(e, h)
  {
    if entries == [] {
      assert [] + [e] == [e] && HandOvers([e][1..], h) == [];
    } else {
      HandOversSnoc(entries[1..], e, h);
      assert (entries + [e])[1..] == entries[1..] + [e];
    }
  }

  lemma HandOversUpTo(entries: seq<Entry>, i: nat, h: Host)
    requires i < |entries|
    ensures HandOvers(entries[..i + 1], h) == HandOvers(entries[..i], h) + HandOver(entries[i], h)
  {
    assert entries[..i + 1] == entries[..i] + [entries[i]];
    HandOversSnoc(entries[..i], entries[i], h);
  }

  /** The calls name exactly the writes that may be handed on, each addressed to the current term. */
  lemma {:induction false} HandOversAreExact(entries: seq<Entry>, h: Host, c: Call)
    ensures c in HandOvers(entries, h) <==>
            exists i :: 0 <= i < |entries| && entries[i].request == c.request
                        && MayHandOn(entries[i].pending, h) && h.currentTerm == Some(c.term)
  {
    if entries != [] {
      HandOversAreExact(entries[1..], h, c);
      if i :| 0 <= i < |entries| && entries[i].request == c.request
              && MayHandOn(entries[i].pending, h) && h.currentTerm == Some(c.term) {
        assert i > 0 ==> entries[1..][i - 1] == entries[i];
      }
    }
  }

  /** The calls name the writes in the order they were issued, each at most once. */
  lemma {:induction false} HandOversKeepOrder(entries: seq<Entry>, h: Host, i: nat, j: nat)
    returns (a: nat, b: nat)
    requires i < j < |HandOvers(entries, h)|
    ensures a < b < |entries|
    ensures entries[a].request == HandOvers(entries, h)[i].request
    ensures entries[b].request == HandOvers(entries, h)[j].request
  {
    var k := |HandOver(entries[0], h)|;
    var rest := HandOvers(entries[1..], h);
    if i < k {
      HandOversAreExact(entries[1..], h, rest[j - k]);
      var b' :| 0 <= b' < |entries[1..]| && entries[1..][b'].request == rest[j - k].request;
      a, b := 0, b' + 1;
    } else {
      a, b := HandOversKeepOrder(entries[1..], h, i - k, j - k);
      a, b := a + 1, b + 1;
    }
  }

  /** What is left of the records when `t` ends: those it had begun are gone. */
  function Survivors(entries: seq<Entry>, t: TermId): (left: seq<Entry>)
    ensures forall e :: e in left <==> e in entries && e.pending.startedTerm != Some(t)
  {
    if entries == [] then []
    else if entries[0].pending.startedTerm == Some(t) then Survivors(entries[1..], t)
    else [entries[0]] + Survivors(entries[1..], t)
  }

  lemma {:induction false} SurvivorsSnoc(entries: seq<Entry>, e: Entry, t: TermId)
    ensures Survivors(entries + [e], t) ==
            Survivors(entries, t) + if e.pending.startedTerm == Some(t) then [] else [e]
  {
    if entries == [] {
      assert [] + [e] == [e];
    } else {
      SurvivorsSnoc(entries[1..], e, t);
      assert (entries + [e])[1..] == entries[1..] + [e];
    }
  }

  lemma SurvivorsUpTo(entries: seq<Entry>, i: nat, t: TermId)
    requires i < |entries|
    ensures Survivors(entries[..i + 1], t) ==
            Survivors(entries[..i], t) + if entries[i].pending.startedTerm == Some(t) then [] else [entries[i]]
    ensures forall r :: LostIn(entries[..i + 1], t, r) <==>
              LostIn(entries[..i], t, r) || (r == entries[i].request && entries[i].pending.startedTerm == Some(t))
  {
    assert entries[..i + 1] == entries[..i] + [entries[i]];
    SurvivorsSnoc(entries[..i], entries[i], t);
    var all := entries[..i + 1];
    var isLost := entries[i].pending.startedTerm == Some(t);
    forall r ensures LostIn(all, t, r) <==> LostIn(entries[..i], t, r) || (r == entries[i].request && isLost) {
      if LostIn(entries[..i], t, r) {
        var k :| 0 <= k < i && entries[..i][k].request == r && entries[..i][k].pending.startedTerm == Some(t);
        assert all[k].request == r;
      }
      if r == entries[i].request {
        assert all[i].request == r;
      }
    }
  }

  // --- The class --------------------------------------------------------------------------------

  class PendingWrites {
    var entries: seq<Entry>
    /** Every call of `host.dispatch` so far, oldest first. */
    var handed: seq<Call>
    /** How the promises of settled writes ended. */
    var settled: map<RequestId, Outcome>

    ghost predicate Valid()
      reads this
    {
      && Distinct(entries)
      && (forall i :: 0 <= i < |entries| ==> entries[i].pending.Valid())
      // A write is settled once: nothing pending has been settled before.
      && (forall i :: 0 <= i < |entries| ==> entries[i].request !in settled)
    }

    constructor ()
      ensures Valid() && entries == [] && settled == map[] && handed == []
    {
      entries, handed, settled := [], [], map[];
    }

    /** Identifiers are never issued twice: each is new when it is added. */
    method Add(r: RequestId, h: Host)
      requires Valid() && !Has(entries, r) && r !in settled
      modifies this
      ensures Valid() && settled == old(settled)
      ensures entries == old(entries) + [Entry(r, HandOn(FRESH, h))]
      ensures handed == old(handed) + HandOver(Entry(r, FRESH), h)
    {
      entries := entries + [Entry(r, FRESH)];
      Dispatch(|entries| - 1, h);
    }

    /** `approve`: decides and marks in one turn. */
    method Approve(r: RequestId, t: TermId) returns (approved: bool)
      requires Valid()
      modifies this`entries
      ensures Valid() && |entries| == |old(entries)|
      ensures approved <==> exists i :: 0 <= i < |old(entries)| && old(entries)[i].request == r
                                        && MayBegin(old(entries)[i].pending, t)
      ensures forall i :: 0 <= i < |entries| ==> entries[i] == var e := old(entries)[i];
                if approved && e.request == r then e.(pending := LetBegin(e.pending, t)) else e
    {
      approved := false;
      if i :| 0 <= i < |entries| && entries[i].request == r {
        var p := entries[i].pending;
        if p.addressedTerm == Some(t) {
          if p.startedTerm.None? {
            entries := entries[i := entries[i].(pending := p.(startedTerm := Some(t)))];
          }
          approved := true;
        }
      }
    }

    /** An answer is taken only from the term the write is addressed to. */
    method HandleResult(r: RequestId, t: Option<TermId>, o: Outcome, h: Host)
      requires Valid()
      modifies this
      ensures Valid()
      ensures var taken := exists i :: 0 <= i < |old(entries)| && old(entries)[i].request == r
                                       && t.Some? && t == old(entries)[i].pending.addressedTerm;
              && (!taken ==> entries == old(entries) && settled == old(settled) && handed == old(handed))
              && (taken && o != NotConnected ==>
                    !Has(entries, r) && settled == old(settled)[r := o] && handed == old(handed)
                    && forall e :: e in entries <==> e in old(entries) && e.request != r)
              && (taken && o == NotConnected ==>
                    settled == old(settled) && |entries| == |old(entries)|
                    && forall i :: 0 <= i < |entries| ==> var e := old(entries)[i];
                         if e.request != r then entries[i] == e
                         else entries[i] == e.(pending := HandOn(HandBack(e.pending), h))
                              && handed == old(handed) + HandOver(e.(pending := HandBack(e.pending)), h))
    {
      if i :| 0 <= i < |entries| && entries[i].request == r {
        if t.None? || t != entries[i].pending.addressedTerm {
          return;
        }
        if o != NotConnected {
          Settle(r, o);
          return;
        }
        entries := entries[i := entries[i].(pending := HandBack(entries[i].pending))];
        Dispatch(i, h);
      }
    }

    /** `handleTermEnded`: what the term had begun is lost, everything else is handed on if it may be. */
    method HandleTermEnded(t: TermId, h: Host)
      requires Valid()
      modifies this
      ensures Valid()
      ensures entries == AllHandedOn(Survivors(old(entries), t), h)
      ensures handed == old(handed) + HandOvers(Survivors(old(entries), t), h)
      ensures forall r :: r in settled <==> r in old(settled) || LostIn(old(entries), t, r)
      ensures forall r :: r in settled ==> settled[r] == if r in old(settled) then old(settled)[r] else OwnerLost
    {
      SettleLost(t);
      DispatchWaiting(h);
    }

    method SettleLost(t: TermId)
      requires Valid()
      modifies this`entries, this`settled
      ensures Valid()
      ensures entries == Survivors(old(entries), t)
      ensures forall r :: r in settled <==> r in old(settled) || LostIn(old(entries), t, r)
      ensures forall r :: r in settled ==> settled[r] == if r in old(settled) then old(settled)[r] else OwnerLost
    {
      ghost var was := entries;
      ghost var i := 0;
      var at := 0;
      while at < |entries|
        invariant Valid() && at <= |entries| && i <= |was|
        invariant entries[..at] == Survivors(was[..i], t) && entries[at..] == was[i..]
        invariant LostAre(old(settled), settled, was[..i], t)
        decreases |entries| - at
      {
        Advances(entries, at, was, i);
        SurvivorsUpTo(was, i, t);
        LostOneMore(old(settled), settled, was, i, t);
        if entries[at].pending.startedTerm == Some(t) {
          SettleAt(at, OwnerLost);
        } else {
          at := at + 1;
        }
        i := i + 1;
      }
      assert was[..i] == was && entries[..at] == entries;
    }

    /** `resendUnstarted`: takes back what may be handed over again, and hands it on. */
    method ResendUnstarted(h: Host)
      requires Valid()
      modifies this`entries, this`handed
      ensures Valid()
      ensures entries == AllHandedOn(AllTakenBack(old(entries), h), h)
      ensures handed == old(handed) + HandOvers(AllTakenBack(old(entries), h), h)
    {
      ghost var was := entries;
      ghost var offered := AllTakenBack(was, h);
      for i := 0 to |entries|
        invariant Valid() && |entries| == |was|
        invariant forall j :: 0 <= j < |was| ==>
                    entries[j] == if j < i then offered[j].(pending := HandOn(offered[j].pending, h)) else was[j]
        invariant handed == old(handed) + HandOvers(offered[..i], h)
      {
        HandOversUpTo(offered, i, h);
        var p := entries[i].pending;
        if p.startedTerm.None? &&
           (p.addressedTerm.None? || p.addressedTerm == h.currentTerm || p.addressedTerm.value in h.ended) {
          entries := entries[i := entries[i].(pending := p.(isDispatched := false))];
          Dispatch(i, h);
        }
      }
      assert offered[..|offered|] == offered;
    }

    method DispatchWaiting(h: Host)
      requires Valid()
      modifies this`entries, this`handed
      ensures Valid()
      ensures entries == AllHandedOn(old(entries), h)
      ensures handed == old(handed) + HandOvers(old(entries), h)
    {
      ghost var was := entries;
      for i := 0 to |entries|
        invariant Valid() && |entries| == |was|
        invariant forall j :: 0 <= j < |was| ==>
                    entries[j] == if j < i then was[j].(pending := HandOn(was[j].pending, h)) else was[j]
        invariant handed == old(handed) + HandOvers(was[..i], h)
      {
        HandOversUpTo(was, i, h);
        Dispatch(i, h);
      }
      assert was[..|was|] == was;
    }

    /** The deadline of a write: whether it is reported as started is what this tab let begin. */
    method Expire(r: RequestId)
      requires Valid()
      modifies this
      ensures Valid() && handed == old(handed)
      ensures forall e :: e in entries <==> e in old(entries) && e.request != r
      ensures forall e :: e in old(entries) && e.request == r ==>
                settled == old(settled)[r := OnDeadline(e.pending)]
      ensures !Has(old(entries), r) ==> settled == old(settled)
    {
      if i :| 0 <= i < |entries| && entries[i].request == r {
        SettleAt(i, Timeout(entries[i].pending.startedTerm.Some?));
      }
    }

    method Settle(r: RequestId, o: Outcome)
      requires Valid()
      modifies this
      ensures Valid() && handed == old(handed) && !Has(entries, r)
      ensures forall e :: e in entries <==> e in old(entries) && e.request != r
      ensures settled == if Has(old(entries), r) then old(settled)[r := o] else old(settled)
    {
      if i :| 0 <= i < |entries| && entries[i].request == r {
        SettleAt(i, o);
      }
    }

    method SettleAt(i: nat, o: Outcome)
      requires Valid() && i < |entries|
      modifies this`entries, this`settled
      ensures Valid()
      ensures entries == old(entries)[..i] + old(entries)[i + 1..]
      ensures settled == old(settled)[old(entries)[i].request := o]
    {
      settled := settled[entries[i].request := o];
      entries := entries[..i] + entries[i + 1..];
    }

    method FailAll(o: Outcome)
      requires Valid()
      modifies this
      ensures Valid() && entries == [] && handed == old(handed)
      ensures forall r :: r in settled <==> r in old(settled) || Has(old(entries), r)
      ensures forall r :: r in settled ==> settled[r] == if r in old(settled) then old(settled)[r] else o
    {
      ghost var was := entries;
      while entries != []
        invariant Valid() && handed == old(handed) && |entries| <= |was|
        invariant entries == was[|was| - |entries|..]
        invariant forall r :: r in settled <==> r in old(settled) || Has(was[..|was| - |entries|], r)
        invariant forall r :: r in settled ==> settled[r] == if r in old(settled) then old(settled)[r] else o
        decreases |entries|
      {
        ghost var k := |was| - |entries|;
        assert was[..k + 1] == was[..k] + [was[k]];
        SettleAt(0, o);
      }
      assert was[..|was|] == was;
    }

    /** `#dispatch`. */
    method Dispatch(i: nat, h: Host)
      requires Valid() && i < |entries|
      modifies this`entries, this`handed
      ensures Valid()
      ensures entries == old(entries)[i := old(entries)[i].(pending := HandOn(old(entries)[i].pending, h))]
      ensures handed == old(handed) + HandOver(old(entries)[i], h)
    {
      var p := entries[i].pending;
      if p.startedTerm.Some? || !h.canDispatch || h.currentTerm.None? {
        return;
      }
      if p.isDispatched && p.addressedTerm == h.currentTerm {
        return;
      }
      if p.addressedTerm.Some? && p.addressedTerm != h.currentTerm && p.addressedTerm.value !in h.ended {
        return;
      }
      entries := entries[i := entries[i].(pending := p.(isDispatched := true, addressedTerm := h.currentTerm))];
      handed := handed + [Call(entries[i].request, h.currentTerm.value)];
    }
  }

  /** One step through `was` and what is left of it, `left`: the next record stays or goes. */
  lemma Advances(left: seq<Entry>, at: nat, was: seq<Entry>, i: nat)
    requires at < |left| && i <= |was| && left[at..] == was[i..]
    ensures i < |was| && left[at] == was[i]
    ensures left[at + 1..] == was[i + 1..] && left[..at + 1] == left[..at] + [was[i]]
    ensures (left[..at] + left[at + 1..])[at..] == was[i + 1..] && (left[..at] + left[at + 1..])[..at] == left[..at]
  {
    assert left[at] == left[at..][0] && was[i..][0] == was[i];
    assert left[at + 1..] == left[at..][1..] && was[i + 1..] == was[i..][1..];
  }

  /** What is settled when a term has ended: what was, and what it had begun as lost. */
  ghost predicate LostAre(before: map<RequestId, Outcome>, now: map<RequestId, Outcome>, entries: seq<Entry>,
                          t: TermId) {
    && (forall r :: r in now <==> r in before || LostIn(entries, t, r))
    && (forall r :: r in now ==> now[r] == if r in before then before[r] else OwnerLost)
  }

  lemma LostOneMore(before: map<RequestId, Outcome>, now: map<RequestId, Outcome>, entries: seq<Entry>, i: nat,
                    t: TermId)
    requires i < |entries| && entries[i].request !in now && LostAre(before, now, entries[..i], t)
    ensures var isLost := entries[i].pending.startedTerm == Some(t);
            LostAre(before, if isLost then now[entries[i].request := OwnerLost] else now, entries[..i + 1], t)
  {
    SurvivorsUpTo(entries, i, t);
  }

  ghost predicate LostIn(entries: seq<Entry>, t: TermId, r: RequestId) {
    exists i :: 0 <= i < |entries| && entries[i].request == r && entries[i].pending.startedTerm == Some(t)
  }
}
