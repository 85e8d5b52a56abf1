/**
 * What one tab knows about the terms of holding the port, and so who may say what about it: the class
 * `OwnerTerms` of `src/client/owner-terms.ts`.
 *
 * The answers of the browser about a term's lock arrive as calls of `LockChecked` and `WatchGranted`,
 * at any time and in any order; they name the record they are about by its identity, because a term
 * may have been forgotten and heard of again meanwhile. What a message does when it is believed is one
 * entry in `applied`. Nothing is assumed about the messages.
 */
module OwnerTerms {
  import opened Basics

  /** How many terms a tab keeps, and how many messages may wait for one check. */
  const MAX_TERM_FLOOD: nat := 16

  datatype TermClaim = TermClaim(term: TermId, from: ClientId, maxTabs: int)

  datatype Phase = Checking | Live | Ended | Refused

  datatype LockAnswer = Held | Free | Unknown

  /** A message that waits for the answer about a term's lock, by the number it arrived under. */
  datatype Waiting = Claims(message: nat) | SaysGoodbye(message: nat) | SpeaksOfDevice(message: nat)

  datatype Known = Known(
    id: nat,
    claim: TermClaim,
    phase: Phase,
    isOwn: bool,
    isSucceeded: bool,
    isEnding: bool,
    hasHeardGoodbye: bool,
    waiting: seq<Waiting>)

  /** A term heard of for the first time, with the message that named it waiting. */
  function Unchecked(id: nat, claim: TermClaim, message: nat): Known {
    Known(id, claim, Checking, false, false, false, false, [Claims(message)])
  }

  /** One call of `onEnded`. */
  datatype EndedCall = EndedCall(term: TermId, wasCurrent: bool)

  /** The messages of a waiting list that are applied once the term is known to be live, in order. */
  function Applicable(waiting: seq<Waiting>): seq<nat> {
    if waiting == [] then []
    else (if waiting[0].SaysGoodbye? then [] else [waiting[0].message]) + Applicable(waiting[1..])
  }

  /** The record a granted watch is about: a live term of another tab. */
  predicate IsWatched(e: Known, id: nat) { e.id == id && e.phase.Live? && !e.isOwn }

  predicate IsOver(e: Known) { e.phase.Ended? || e.phase.Refused? }

  ghost predicate Names(entries: seq<Known>, i: int, t: TermId) {
    0 <= i < |entries| && entries[i].claim.term == t
  }

  ghost predicate Knows(entries: seq<Known>, t: TermId) { exists i :: Names(entries, i, t) }

  ghost predicate CurrentAt(entries: seq<Known>, t: TermId, i: int) {
    Names(entries, i, t) && entries[i].phase.Live? && !entries[i].isSucceeded
  }

  ghost predicate SpeaksForLive(entries: seq<Known>, from: ClientId) {
    exists i :: 0 <= i < |entries| && entries[i].claim.from == from && entries[i].phase.Live?
  }

  /** No two records are of one term, nor of one identity. */
  ghost predicate Distinct(entries: seq<Known>) {
    forall i, j :: 0 <= i < j < |entries| ==>
      entries[i].claim.term != entries[j].claim.term && entries[i].id != entries[j].id
  }

  /** Which entry a full table gives up: what is over, then the oldest check, then the oldest other. */
  ghost predicate IsVictim(entries: seq<Known>, current: Option<TermId>, i: nat)
    requires i < |entries|
  {
    if exists j :: 0 <= j < |entries| && IsOver(entries[j])
    then IsOver(entries[i]) && forall j :: 0 <= j < i ==> !IsOver(entries[j])
    else if exists j :: 0 <= j < |entries| && entries[j].phase.Checking?
    then entries[i].phase.Checking? && forall j :: 0 <= j < i ==> !entries[j].phase.Checking?
    else current != Some(entries[i].claim.term) &&
         forall j :: 0 <= j < i ==> current == Some(entries[j].claim.term)
  }

  function WithoutAt(entries: seq<Known>, i: nat): seq<Known>
    requires i < |entries|
  {
    entries[..i] + entries[i + 1..]
  }

  ghost predicate GivesOneUp(all: seq<Known>, current: Option<TermId>, left: seq<Known>) {
    exists i :: 0 <= i < |all| && IsVictim(all, current, i) && left == WithoutAt(all, i)
  }

  /** What remains of the records `all` once no more than `MAX_TERM_FLOOD` are kept. */
  ghost predicate Kept(all: seq<Known>, current: Option<TermId>, left: seq<Known>) {
    if |all| <= MAX_TERM_FLOOD then left == all else GivesOneUp(all, current, left)
  }

  lemma NewIsDistinct(was: seq<Known>, e: Known)
    requires Distinct(was) && !Knows(was, e.claim.term) && forall i :: 0 <= i < |was| ==> was[i].id < e.id
    ensures Distinct(was + [e])
  {
    forall i | 0 <= i < |was| ensures was[i].claim.term != e.claim.term {
      assert Names(was, i, e.claim.term) ==> Knows(was, e.claim.term);
    }
  }

  /** A full table never gives up a live term just added: it is not over, and not the oldest. */
  lemma KeepsNewest(was: seq<Known>, e: Known, current: Option<TermId>, left: seq<Known>)
    requires |was| <= MAX_TERM_FLOOD && Distinct(was + [e]) && Kept(was + [e], current, left)
    requires e.phase.Live?
    ensures e in left
  {
    var all := was + [e];
    assert all[|was|] == e;
    if |all| > MAX_TERM_FLOOD {
      assert all[0].claim.term != all[1].claim.term;
      var i :| 0 <= i < |all| && IsVictim(all, current, i) && left == WithoutAt(all, i);
      if i < |was| { assert left[|was| - 1] == e; }
    }
  }

  /**
   * The newest check is given up at once if and only if the table is full of live terms: the oldest
   * check is then the newest, so the term it names is not checked.
   */
  lemma NewestCheckIsKept(was: seq<Known>, e: Known, current: Option<TermId>, left: seq<Known>)
    requires |was| <= MAX_TERM_FLOOD && Distinct(was + [e]) && Kept(was + [e], current, left)
    requires e.phase.Checking?
    ensures e in left <==> |was| < MAX_TERM_FLOOD || exists j :: 0 <= j < |was| && !was[j].phase.Live?
  {
    var all := was + [e];
    if |all| > MAX_TERM_FLOOD {
      var i :| 0 <= i < |all| && IsVictim(all, current, i) && left == WithoutAt(all, i);
      NewestIsVictimOfLive(was, e, current, i);
      NewestIsInWhatIsLeft(was, e, i);
    } else {
      assert all[|was|] == e;
    }
  }

  lemma NewestIsVictimOfLive(was: seq<Known>, e: Known, current: Option<TermId>, i: nat)
    requires e.phase.Checking? && i <= |was| && IsVictim(was + [e], current, i)
    ensures i == |was| <==> forall j :: 0 <= j < |was| ==> was[j].phase.Live?
  {
    var all := was + [e];
    assert all[|was|] == e && forall j :: 0 <= j < |was| ==> all[j] == was[j];
  }

  lemma NewestIsInWhatIsLeft(was: seq<Known>, e: Known, i: nat)
    requires i <= |was| && Distinct(was + [e])
    ensures e in WithoutAt(was + [e], i) <==> i < |was|
  {
    var all := was + [e];
    if i < |was| {
      assert WithoutAt(all, i)[|was| - 1] == e;
    } else {
      assert WithoutAt(all, i) == was;
      assert forall j :: 0 <= j < |was| ==> all[j] == was[j] && all[j].id != all[|was|].id;
    }
  }

  /** Record `i` is live and nothing waits for it any more; of the others, one may have been succeeded. */
  ghost predicate BecameLive(was: seq<Known>, i: nat, now: seq<Known>)
    requires i < |was|
  {
    && |now| == |was|
    && now[i] == was[i].(phase := Live, waiting := [], hasHeardGoodbye := now[i].hasHeardGoodbye)
    && OthersOnlySucceeded(was, i, now)
  }

  ghost predicate OthersOnlySucceeded(was: seq<Known>, i: nat, now: seq<Known>)
    requires |now| == |was|
  {
    forall j :: 0 <= j < |now| && j != i ==> now[j] == was[j].(isSucceeded := now[j].isSucceeded)
  }

  /** Of record `i` only the note of a goodbye may have changed; of the others, one may have been succeeded. */
  ghost predicate OnlyHeard(was: seq<Known>, i: nat, now: seq<Known>)
    requires i < |was|
  {
    && |now| == |was|
    && now[i] == was[i].(hasHeardGoodbye := now[i].hasHeardGoodbye)
    && OthersOnlySucceeded(was, i, now)
  }

  lemma OnlyHeardTwice(was: seq<Known>, i: nat, between: seq<Known>, now: seq<Known>)
    requires i < |was| && OnlyHeard(was, i, between) && OnlyHeard(between, i, now)
    ensures OnlyHeard(was, i, now)
  {
  }

  /** Applying the next message leaves the same to come out at the end. */
  lemma NextApplies(waiting: seq<Waiting>, k: nat, was: seq<nat>, now: seq<nat>, all: seq<nat>)
    requires k < |waiting| && was + Applicable(waiting[k..]) == all
    requires now == was + if waiting[k].SaysGoodbye? then [] else [waiting[k].message]
    ensures now + Applicable(waiting[k + 1..]) == all
  {
    assert waiting[k..][1..] == waiting[k + 1..];
  }

  class OwnerTerms {
    /** The records of the terms heard of, oldest first. */
    var entries: seq<Known>
    var current: Option<TermId>
    var isDisposed: bool
    var nextId: nat
    /** How many messages have arrived; each is numbered. */
    var received: nat
    /** The messages believed, and the terms reported ended, in order. */
    var applied: seq<nat>
    var ended: seq<EndedCall>
    /** The claims whose lock the browser has said is held, and those it has granted this tab. */
    ghost var foundHeld: set<TermClaim>
    ghost var foundFree: set<TermClaim>

    /** What is believed of a term another tab holds rests on its lock, named by the whole claim. */
    ghost predicate Founded(e: Known)
      reads `foundHeld, `foundFree, `received
    {
      && (!e.isOwn && (e.phase.Live? || e.phase.Ended?) ==> e.claim in foundHeld)
      && (!e.isOwn && e.phase.Ended? ==> e.claim in foundFree)
      && (e.isEnding ==> e.claim in foundFree && !e.isOwn)
      && (e.waiting != [] ==> e.phase.Checking?)
      && |e.waiting| <= MAX_TERM_FLOOD
      && (e.phase.Checking? ==> !e.isSucceeded && !e.isOwn && !e.isEnding)
      && (forall i :: 0 <= i < |e.waiting| ==> e.waiting[i].message < received)
      && (forall i, j :: 0 <= i < j < |e.waiting| ==> e.waiting[i].message < e.waiting[j].message)
    }

    /** The current term is known, live, and no later one has been heard of. */
    ghost predicate CurrentOk()
      reads `entries, `current
    {
      current.Some? ==> exists i :: CurrentAt(entries, current.value, i)
    }

    ghost predicate Valid()
      reads this
    {
      && Distinct(entries)
      && |entries| <= MAX_TERM_FLOOD
      && AllFounded(entries)
      && CurrentOk()
      && (isDisposed ==> entries == [] && current.None?)
    }

    constructor ()
      ensures Valid() && entries == [] && current.None? && applied == [] && ended == []
      ensures !isDisposed && nextId == 0
    {
      entries, current, isDisposed, nextId, received, applied, ended := [], None, false, 0, 0, [], [];
      foundHeld, foundFree := {}, {};
    }

    method IsEnded(t: TermId) returns (r: bool)
      requires Valid()
      ensures r <==> exists i :: Names(entries, i, t) && entries[i].phase.Ended?
    {
      r := false;
      if i :| 0 <= i < |entries| && entries[i].claim.term == t {
        assert Names(entries, i, t);
        r := entries[i].phase.Ended?;
      }
    }

    // --- Messages -------------------------------------------------------------------------------

    /**
     * `owner-claimed` or `status`: believed at once only if the claim is known, its term live and not
     * succeeded; then it is the current term.
     */
    method AuthorizeClaim(claim: TermClaim)
      requires Valid()
      modifies this
      ensures Valid() && ended == old(ended) && received == old(received) + 1 && isDisposed == old(isDisposed)
      ensures foundHeld == old(foundHeld) && foundFree == old(foundFree)
      ensures var believed := exists i :: 0 <= i < |old(entries)| && old(entries)[i].claim == claim
                                          && old(entries)[i].phase.Live? && !old(entries)[i].isSucceeded;
              && applied == old(applied) + (if believed then [old(received)] else [])
              && current == if believed then Some(claim.term) else old(current)
      // A term not heard of before is to be checked, with the message waiting for the answer.
      ensures !isDisposed && !Knows(old(entries), claim.term) ==>
                && nextId == old(nextId) + 1
                && Kept(old(entries) + [Unchecked(old(nextId), claim, old(received))], current, entries)
    {
      var message := received;
      received := received + 1;
      if isDisposed {
        return;
      }
      Observe(claim, message);
    }

    method Observe(claim: TermClaim, message: nat)
      requires Valid() && message < received && !isDisposed
      requires forall i, k ::
                 0 <= i < |entries| && entries[i].claim.term == claim.term && 0 <= k < |entries[i].waiting| ==>
                 entries[i].waiting[k].message < message
      modifies this`entries, this`current, this`applied, this`nextId
      ensures Valid()
      ensures var believed := exists i :: 0 <= i < |old(entries)| && old(entries)[i].claim == claim
                                          && old(entries)[i].phase.Live? && !old(entries)[i].isSucceeded;
              && applied == old(applied) + (if believed then [message] else [])
              && current == if believed then Some(claim.term) else old(current)
      ensures !Knows(old(entries), claim.term) ==>
                && nextId == old(nextId) + 1
                && Kept(old(entries) + [Unchecked(old(nextId), claim, message)], current, entries)
    {
      if i :| 0 <= i < |entries| && entries[i].claim.term == claim.term {
        assert Names(entries, i, claim.term);
        ObserveKnown(i, claim, message);
      } else {
        Remember(Unchecked(nextId, claim, message));
      }
    }

    method ObserveKnown(i: nat, claim: TermClaim, message: nat)
      requires Valid() && message < received && !isDisposed && i < |entries| && entries[i].claim.term == claim.term
      requires forall k :: 0 <= k < |entries[i].waiting| ==> entries[i].waiting[k].message < message
      modifies this`entries, this`current, this`applied
      ensures Valid()
      ensures var e := old(entries)[i];
              var believed := e.claim == claim && e.phase.Live? && !e.isSucceeded;
              && applied == old(applied) + (if believed then [message] else [])
              && current == if believed then Some(claim.term) else old(current)
    {
      var e := entries[i];
      if IsOver(e) || e.claim != claim {
        return;
      }
      if e.phase.Checking? {
        WaitFor(i, Claims(message));
        return;
      }
      if e.isSucceeded {
        return;
      }
      MakeCurrent(i);
      applied := applied + [message];
    }

    /** Changes a record; the current term keeps its standing. */
    method Put(i: nat, e: Known)
      requires Valid() && i < |entries| && e.id == entries[i].id && e.claim == entries[i].claim && Founded(e)
      requires current != Some(e.claim.term) || (e.phase == entries[i].phase && e.isSucceeded == entries[i].isSucceeded)
      modifies this`entries
      ensures Valid() && entries == old(entries)[i := e]
    {
      PutKeepsRecords(entries, i, e);
      entries := entries[i := e];
      KeepsCurrent(old(entries), i);
    }

    lemma PutKeepsRecords(was: seq<Known>, i: nat, e: Known)
      requires Distinct(was) && AllFounded(was) && i < |was|
      requires e.id == was[i].id && e.claim == was[i].claim && Founded(e)
      ensures Distinct(was[i := e]) && AllFounded(was[i := e])
    {
      var now := was[i := e];
      assert forall j :: 0 <= j < |now| ==> now[j].id == was[j].id && now[j].claim == was[j].claim;
    }

    method WaitFor(i: nat, w: Waiting)
      requires Valid() && i < |entries| && entries[i].phase.Checking? && w.message < received
      requires forall k :: 0 <= k < |entries[i].waiting| ==> entries[i].waiting[k].message < w.message
      modifies this`entries
      ensures Valid() && |entries| == |old(entries)|
      ensures entries == old(entries)[i := old(entries)[i].(waiting :=
                if |old(entries)[i].waiting| >= MAX_TERM_FLOOD then old(entries)[i].waiting
                else old(entries)[i].waiting + [w])]
    {
      if |entries[i].waiting| >= MAX_TERM_FLOOD {
        return;
      }
      Put(i, entries[i].(waiting := entries[i].waiting + [w]));
    }

    method MakeCurrent(i: nat)
      requires Valid() && i < |entries| && entries[i].phase.Live? && !entries[i].isSucceeded
      modifies this`entries, this`current
      ensures Valid() && current == Some(old(entries)[i].claim.term) && |entries| == |old(entries)|
      ensures entries[i] == old(entries)[i] && OthersOnlySucceeded(old(entries), i, entries)
      ensures forall j :: 0 <= j < |entries| ==> entries[j] == var e := old(entries)[j];
                if old(current) == Some(e.claim.term) && j != i then e.(isSucceeded := true) else e
    {
      var t := entries[i].claim.term;
      if current == Some(t) {
        return;
      }
      var previous := current;
      current := Some(t);
      assert CurrentAt(entries, t, i);
      if previous.Some? {
        assert exists j :: CurrentAt(entries, previous.value, j);
        Succeed(previous.value, t);
        assert entries[i] == old(entries)[i];
      }
    }

    /** The record of `previous`, the term current so far, is marked as succeeded. */
    method Succeed(previous: TermId, t: TermId)
      requires Valid() && current == Some(t) && t != previous
      requires exists j :: CurrentAt(entries, previous, j)
      modifies this`entries
      ensures Valid() && |entries| == |old(entries)|
      ensures forall j :: 0 <= j < |entries| ==> entries[j] == var e := old(entries)[j];
                if e.claim.term == previous then e.(isSucceeded := true) else e
    {
      if j :| 0 <= j < |entries| && entries[j].claim.term == previous {
        assert entries[j].phase.Live?;
        Put(j, entries[j].(isSucceeded := true));
      }
    }

    // --- Keeping few ----------------------------------------------------------------------------

    /** `#remember`: at most `MAX_TERM_FLOOD` terms are kept, and never the current one given up. */
    method Remember(e: Known)
      requires Valid() && !isDisposed && Founded(e) && e.id == nextId && !Knows(entries, e.claim.term)
      modifies this`entries, this`nextId
      ensures Valid() && nextId == old(nextId) + 1
      ensures Kept(old(entries) + [e], current, entries)
    {
      ghost var all := entries + [e];
      entries := entries + [e];
      nextId := nextId + 1;
      KeepsCurrentBefore(old(entries), e);
      while |entries| > MAX_TERM_FLOOD
        invariant nextId == old(nextId) + 1 && |entries| <= MAX_TERM_FLOOD + 1
        invariant Distinct(entries) && CurrentOk() && AllFounded(entries)
        invariant entries == all || (|entries| == MAX_TERM_FLOOD && Kept(all, current, entries))
        decreases |entries|
      {
        var i := Victim();
        Forget(i);
        ForgetKeeps(all, i);
      }
    }

    ghost predicate AllFounded(known: seq<Known>)
      reads `foundHeld, `foundFree, `received, `nextId
    {
      forall i :: 0 <= i < |known| ==> Founded(known[i]) && known[i].id < nextId
    }

    lemma ForgetKeeps(was: seq<Known>, i: nat)
      requires i < |was| && entries == WithoutAt(was, i) && Distinct(was) && AllFounded(was)
      requires current != Some(was[i].claim.term) || IsOver(was[i]) || was[i].phase.Checking?
      requires current.Some? ==> exists j :: CurrentAt(was, current.value, j)
      ensures Distinct(entries) && AllFounded(entries) && CurrentOk()
    {
      forall j | 0 <= j < |entries| ensures entries[j] == was[if j < i then j else j + 1] {
      }
      if current.Some? {
        var j :| CurrentAt(was, current.value, j);
        assert CurrentAt(entries, current.value, if j < i then j else j - 1);
      }
    }

    lemma KeepsCurrentBefore(was: seq<Known>, e: Known)
      requires entries == was + [e] && Distinct(was) && !Knows(was, e.claim.term)
      requires forall i :: 0 <= i < |was| ==> was[i].id < e.id
      requires current.Some? ==> exists j :: CurrentAt(was, current.value, j)
      ensures CurrentOk() && Distinct(entries)
    {
      NewIsDistinct(was, e);
      if current.Some? {
        var j :| CurrentAt(was, current.value, j);
        assert CurrentAt(entries, current.value, j);
      }
    }

    /** The entry given up, found as the source looks for it: three searches, oldest first. */
    method Victim() returns (i: nat)
      requires Distinct(entries) && |entries| >= 2
      ensures i < |entries| && IsVictim(entries, current, i)
    {
      i := 0;
      while i < |entries|
        invariant i <= |entries| && forall j :: 0 <= j < i ==> !IsOver(entries[j])
      {
        if IsOver(entries[i]) {
          return;
        }
        i := i + 1;
      }
      i := 0;
      while i < |entries|
        invariant i <= |entries| && forall j :: 0 <= j < i ==> !entries[j].phase.Checking?
      {
        if entries[i].phase.Checking? {
          return;
        }
        i := i + 1;
      }
      // Two records are of two terms, and one at most is the current one.
      i := if current == Some(entries[0].claim.term) then 1 else 0;
    }

    method Forget(i: nat)
      requires i < |entries|
      modifies this`entries
      ensures entries == WithoutAt(old(entries), i)
    {
      entries := entries[..i] + entries[i + 1..];
    }

    // --- The end of a term ----------------------------------------------------------------------

    /** `#end`, for a term that has not ended yet. */
    method End(i: nat)
      requires Valid() && i < |entries| && entries[i].phase.Live?
      requires entries[i].isOwn || entries[i].claim in foundFree
      modifies this`entries, this`current, this`ended
      ensures Valid()
      ensures entries == old(entries)[i := old(entries)[i].(phase := Ended, waiting := [])]
      ensures var t := old(entries)[i].claim.term;
              && current == (if old(current) == Some(t) then None else old(current))
              && ended == old(ended) + [EndedCall(t, old(current) == Some(t))]
    {
      var t := entries[i].claim.term;
      var wasCurrent := current == Some(t);
      if wasCurrent {
        current := None;
      }
      Put(i, entries[i].(phase := Ended, waiting := []));
      ended := ended + [EndedCall(t, wasCurrent)];
    }

    /** Changing a record keeps the current term known, unless it is that term's standing that changes. */
    lemma KeepsCurrent(was: seq<Known>, i: nat)
      requires i < |was| && |entries| == |was| && Distinct(was)
      requires forall j :: 0 <= j < |was| && j != i ==> entries[j] == was[j]
      requires entries[i].claim == was[i].claim
      requires current != Some(was[i].claim.term) ||
               (entries[i].phase == was[i].phase && entries[i].isSucceeded == was[i].isSucceeded)
      requires current.Some? ==> exists j :: CurrentAt(was, current.value, j)
      ensures CurrentOk()
    {
      if current.Some? {
        var j :| CurrentAt(was, current.value, j);
        assert CurrentAt(entries, current.value, j);
      }
    }

    /**
     * `owner-released`: never believed on its own. It ends a term only if this tab has been granted the
     * term's lock already; otherwise it is remembered, and only from the term's own holder.
     */
    method AuthorizeGoodbye(t: TermId, from: ClientId)
      requires Valid()
      modifies this
      ensures Valid() && applied == old(applied) && received == old(received) + 1
      ensures foundHeld == old(foundHeld) && foundFree == old(foundFree)
      ensures var ends := exists i :: Names(old(entries), i, t) && old(entries)[i].claim.from == from
                                      && old(entries)[i].phase.Live? && old(entries)[i].isEnding;
              && (ends ==> |ended| == |old(ended)| + 1 && old(ended) <= ended && ended[|old(ended)|].term == t)
              && (!ends ==> ended == old(ended) && current == old(current))
    {
      var message := received;
      received := received + 1;
      if isDisposed {
        return;
      }
      HeardReleased(t, from, message);
    }

    method HeardReleased(t: TermId, from: ClientId, message: nat)
      requires Valid() && message < received
      requires forall i, k :: Names(entries, i, t) && 0 <= k < |entries[i].waiting| ==>
                entries[i].waiting[k].message < message
      modifies this`entries, this`current, this`ended
      ensures Valid() && |entries| == |old(entries)|
      ensures var ends := exists i :: Names(old(entries), i, t) && old(entries)[i].claim.from == from
                                      && old(entries)[i].phase.Live? && old(entries)[i].isEnding;
              && (ends ==> ended == old(ended) + [EndedCall(t, old(current) == Some(t))])
              && (!ends ==> ended == old(ended) && current == old(current))
      ensures forall i :: 0 <= i < |entries| && old(entries)[i].phase.Live? && !old(entries)[i].isEnding ==>
                entries[i] == old(entries)[i].(hasHeardGoodbye := entries[i].hasHeardGoodbye)
      ensures forall i :: 0 <= i < |entries| && old(entries)[i].claim.term != t ==> entries[i] == old(entries)[i]
    {
      if i :| 0 <= i < |entries| && entries[i].claim.term == t {
        assert Names(entries, i, t);
        var e := entries[i];
        if e.claim.from != from {
          return;
        }
        if e.phase.Checking? {
          WaitFor(i, SaysGoodbye(message));
          return;
        }
        if !e.phase.Live? || e.isOwn {
          return;
        }
        Put(i, e.(hasHeardGoodbye := true));
        if e.isEnding {
          End(i);
        }
      }
    }

    /** `write-ready` and `write-result`: only from the context that speaks for the term they name. */
    method AuthorizeFromTerm(t: Option<TermId>, from: ClientId)
      requires Valid()
      modifies this`received, this`applied
      ensures Valid() && received == old(received) + 1
      ensures var believed := t.Some? && exists i :: Names(entries, i, t.value) && !entries[i].phase.Refused?
                                                     && entries[i].claim.from == from;
              applied == old(applied) + if believed then [old(received)] else []
    {
      var message := received;
      received := received + 1;
      if isDisposed || t.None? {
        return;
      }
      if i :| 0 <= i < |entries| && entries[i].claim.term == t.value {
        assert Names(entries, i, t.value);
        if !entries[i].phase.Refused? && entries[i].claim.from == from {
          applied := applied + [message];
        }
      }
    }

    /** `data-received`, `data-sent` and `error`: only from a context that speaks for a live term. */
    method AuthorizeDevice(from: ClientId)
      requires Valid()
      modifies this`received, this`applied, this`entries
      ensures Valid() && received == old(received) + 1 && |entries| == |old(entries)|
      ensures applied == old(applied) + if SpeaksForLive(old(entries), from) then [old(received)] else []
    {
      var message := received;
      received := received + 1;
      if isDisposed {
        return;
      }
      SpeakOfDevice(from, message);
    }

    method SpeakOfDevice(from: ClientId, message: nat)
      requires Valid() && message < received
      requires SpeaksForLive(entries, from) ||
               forall i, k :: 0 <= i < |entries| && 0 <= k < |entries[i].waiting| ==>
                 entries[i].waiting[k].message < message
      modifies this`applied, this`entries
      ensures Valid() && |entries| == |old(entries)|
      ensures applied == (old(applied) + if SpeaksForLive(old(entries), from) then [message] else [])
      ensures SpeaksForLive(old(entries), from) ==> entries == old(entries)
    {
      if i :| 0 <= i < |entries| && entries[i].claim.from == from && entries[i].phase.Live? {
        applied := applied + [message];
        return;
      }
      var i := FirstChecking(from);
      if i < |entries| {
        WaitFor(i, SpeaksOfDevice(message));
      }
    }

    /** `#checkedTermOf`: the oldest term of that sender whose lock is being checked. */
    method FirstChecking(from: ClientId) returns (i: nat)
      ensures i <= |entries|
      ensures forall j :: 0 <= j < i ==> !(entries[j].claim.from == from && entries[j].phase.Checking?)
      ensures i < |entries| ==> entries[i].claim.from == from && entries[i].phase.Checking?
    {
      i := 0;
      while i < |entries|
        invariant i <= |entries|
        invariant forall j :: 0 <= j < i ==> !(entries[j].claim.from == from && entries[j].phase.Checking?)
      {
        if entries[i].claim.from == from && entries[i].phase.Checking? {
          return;
        }
        i := i + 1;
      }
    }

    // --- The lock -------------------------------------------------------------------------------

    /**
     * The answer of the check arrives. Held: the term is live, and what waited is applied in the order
     * it arrived, each message once. Free: refused. No answer: forgotten, and checked afresh next time.
     */
    method LockChecked(id: nat, answer: LockAnswer)
      requires Valid()
      modifies this
      ensures Valid() && ended == old(ended) && received == old(received)
      ensures foundFree == old(foundFree) && nextId == old(nextId) && isDisposed == old(isDisposed)
      ensures forall i :: 0 <= i < |old(entries)| && old(entries)[i].id == id && old(entries)[i].phase.Checking? ==>
                match answer
                case Held => BecameLive(old(entries), i, entries)
                case Free => entries == old(entries)[i := old(entries)[i].(phase := Refused, waiting := [])]
                case Unknown => entries == WithoutAt(old(entries), i)
      ensures forall i :: 0 <= i < |old(entries)| && old(entries)[i].id == id && old(entries)[i].phase.Checking? ==>
                var e := old(entries)[i];
                && applied == old(applied) + (if answer.Held? then Applicable(e.waiting) else [])
                && (answer.Held? ==> e.claim in foundHeld)
                && (answer.Held? && e.waiting != [] && e.waiting[0].Claims? ==> current == Some(e.claim.term))
                && (!answer.Held? ==> current == old(current) && foundHeld == old(foundHeld))
      ensures !(exists i :: 0 <= i < |old(entries)| && old(entries)[i].id == id && old(entries)[i].phase.Checking?) ==>
                applied == old(applied) && entries == old(entries) && current == old(current)
    {
      if i :| 0 <= i < |entries| && entries[i].id == id && entries[i].phase.Checking? {
        var e := entries[i];
        if answer.Unknown? {
          Forget(i);
          ForgetKeeps(old(entries), i);
          return;
        }
        if answer.Free? {
          Put(i, e.(phase := Refused, waiting := []));
          return;
        }
        BecomeLive(i);
      }
    }

    method BecomeLive(i: nat)
      requires Valid() && i < |entries| && entries[i].phase.Checking?
      modifies this
      ensures Valid() && ended == old(ended) && received == old(received) && foundFree == old(foundFree)
      ensures nextId == old(nextId) && isDisposed == old(isDisposed) && BecameLive(old(entries), i, entries)
      ensures var e := old(entries)[i];
              && foundHeld == old(foundHeld) + {e.claim}
              && applied == old(applied) + Applicable(e.waiting)
              && (e.waiting != [] && e.waiting[0].Claims? ==> current == Some(e.claim.term))
    {
      var e := entries[i];
      foundHeld := foundHeld + {e.claim};
      Put(i, e.(phase := Live, waiting := []));
      RunWaiting(i, e.waiting);
    }

    method RunWaiting(i: nat, waiting: seq<Waiting>)
      requires Valid() && i < |entries| && entries[i].phase.Live? && !entries[i].isSucceeded && !entries[i].isEnding
      requires !isDisposed
      requires forall k :: 0 <= k < |waiting| ==> waiting[k].message < received
      modifies this`entries, this`current, this`applied, this`ended
      ensures Valid() && ended == old(ended) && OnlyHeard(old(entries), i, entries)
      ensures applied == old(applied) + Applicable(waiting)
      ensures waiting != [] && waiting[0].Claims? ==> current == Some(old(entries)[i].claim.term)
    {
      ghost var all := applied + Applicable(waiting);
      for k := 0 to |waiting|
        invariant Valid() && ended == old(ended) && OnlyHeard(old(entries), i, entries)
        invariant applied + Applicable(waiting[k..]) == all
        invariant k > 0 && waiting[0].Claims? ==> current == Some(old(entries)[i].claim.term)
        invariant forall j :: 0 <= j < |waiting| ==> waiting[j].message < received
      {
        ghost var between, was := entries, applied;
        RunOne(i, waiting[k]);
        NextApplies(waiting, k, was, applied, all);
        OnlyHeardTwice(old(entries), i, between, entries);
      }
    }

    method RunOne(i: nat, w: Waiting)
      requires Valid() && i < |entries| && entries[i].phase.Live? && !entries[i].isSucceeded && !entries[i].isEnding
      requires !isDisposed
      requires w.message < received
      modifies this`entries, this`current, this`applied, this`ended
      ensures Valid() && ended == old(ended) && OnlyHeard(old(entries), i, entries)
      ensures applied == old(applied) + if w.SaysGoodbye? then [] else [w.message]
      ensures current == if w.Claims? then Some(old(entries)[i].claim.term) else old(current)
    {
      var c := entries[i].claim;
      match w
      case Claims(m) => ObserveLive(i, m);
      case SaysGoodbye(m) => assert Names(entries, i, c.term); HeardReleased(c.term, c.from, m);
      case SpeaksOfDevice(m) =>
        assert SpeaksForLive(entries, c.from);
        SpeakOfDevice(c.from, m);
    }

    /** `#observe` of a claim whose term has just been found live. */
    method ObserveLive(i: nat, message: nat)
      requires Valid() && message < received && !isDisposed
      requires i < |entries| && entries[i].phase.Live? && !entries[i].isSucceeded
      modifies this`entries, this`current, this`applied
      ensures Valid() && applied == old(applied) + [message] && |entries| == |old(entries)|
      ensures current == Some(old(entries)[i].claim.term) && entries[i] == old(entries)[i]
      ensures OthersOnlySucceeded(old(entries), i, entries)
    {
      MakeCurrent(i);
      applied := applied + [message];
    }

    /**
     * The watch is granted: the term's lock is free. The term ends unless its holder was letting go
     * cleanly and its goodbye has not arrived; then it waits for the goodbye.
     */
    method WatchGranted(id: nat, isEnding: bool)
      requires Valid()
      modifies this
      ensures Valid() && applied == old(applied) && received == old(received) && foundHeld == old(foundHeld)
      ensures forall i :: 0 <= i < |old(entries)| && IsWatched(old(entries)[i], id) ==>
                var e := old(entries)[i];
                var wasCurrent := old(current) == Some(e.claim.term);
                var waits := isEnding && !e.hasHeardGoodbye;
                && e.claim in foundFree
                && ended == old(ended) + (if waits then [] else [EndedCall(e.claim.term, wasCurrent)])
                && current == (if waits || !wasCurrent then old(current) else None)
      ensures !(exists i :: 0 <= i < |old(entries)| && IsWatched(old(entries)[i], id)) ==>
                ended == old(ended) && entries == old(entries) && current == old(current)
    {
      if i :| 0 <= i < |entries| && entries[i].id == id && entries[i].phase.Live? && !entries[i].isOwn {
        var e := entries[i];
        foundFree := foundFree + {e.claim};
        if isEnding && !e.hasHeardGoodbye {
          Put(i, e.(isEnding := true));
          return;
        }
        End(i);
      }
    }

    // --- The tab's own terms ----------------------------------------------------------------------

    /** This tab has been granted the port: the term is new, and this tab holds its lock. */
    method TakeOwn(claim: TermClaim)
      requires Valid() && !isDisposed && !Knows(entries, claim.term)
      modifies this
      ensures Valid() && current == Some(claim.term)
      ensures applied == old(applied) && ended == old(ended)
    {
      var e := Known(nextId, claim, Live, true, false, false, false, []);
      RememberLive(e);
      if i :| 0 <= i < |entries| && entries[i].id == e.id {
        MakeCurrent(i);
      }
    }

    method RememberLive(e: Known)
      requires Valid() && !isDisposed && Founded(e) && e.id == nextId && !Knows(entries, e.claim.term) && e.phase.Live?
      modifies this`entries, this`nextId
      ensures Valid() && e in entries
    {
      ghost var was := entries;
      Remember(e);
      NewIsDistinct(was, e);
      KeepsNewest(was, e, current, entries);
    }

    method EndOwn(t: TermId)
      requires Valid()
      modifies this`entries, this`current, this`ended
      ensures Valid()
      ensures (exists i :: Names(old(entries), i, t) && old(entries)[i].phase.Live? && old(entries)[i].isOwn) ==>
                ended == old(ended) + [EndedCall(t, old(current) == Some(t))] && current != Some(t)
    {
      if i :| 0 <= i < |entries| && entries[i].claim.term == t && entries[i].phase.Live? && entries[i].isOwn {
        End(i);
      }
    }

    method Dispose()
      requires Valid()
      modifies this`entries, this`current, this`isDisposed
      ensures Valid() && isDisposed && entries == [] && current.None?
    {
      entries, current, isDisposed := [], None, true;
    }

    /** The current term is this tab's own, or the browser has said that exactly its lock was held. */
    lemma CurrentIsFounded() returns (i: nat)
      requires Valid() && current.Some?
      ensures Names(entries, i, current.value) && (entries[i].isOwn || entries[i].claim in foundHeld)
    {
      i :| CurrentAt(entries, current.value, i);
    }

    /** A term of another tab is down as ended only after this tab has been granted exactly its lock. */
    lemma EndedIsFounded(t: TermId, i: nat)
      requires Valid() && Names(entries, i, t) && entries[i].phase.Ended? && !entries[i].isOwn
      ensures entries[i].claim in foundFree && current != Some(t)
    {
      assert forall j :: Names(entries, j, t) ==> j == i;
      assert current == Some(t) ==> exists j :: CurrentAt(entries, t, j);
    }
  }

  // --- A full table of live terms -----------------------------------------------------------------

  /** The claim by which the `k`th term is heard of, each from a tab of its own. */
  function ClaimOf(k: nat): TermClaim { TermClaim(k, k, 8) }

  ghost predicate AllLive(known: seq<Known>, n: nat) {
    |known| == n && forall i :: 0 <= i < n ==> known[i].phase.Live? && known[i].claim == ClaimOf(i) && known[i].id == i
  }

  /** One more term is heard of, and its lock is found held. */
  method HearOfLiveTerm(o: OwnerTerms, k: nat)
    requires o.Valid() && !o.isDisposed && o.nextId == k < MAX_TERM_FLOOD && AllLive(o.entries, k)
    modifies o
    ensures o.Valid() && !o.isDisposed && o.nextId == k + 1 && AllLive(o.entries, k + 1)
  {
    o.AuthorizeClaim(ClaimOf(k));
    assert o.entries[k].id == k && o.entries[k].phase.Checking?;
    o.LockChecked(k, Held);
  }

  /** Sixteen terms, each claimed by a tab whose lock is found held. */
  method HearOfSixteen() returns (o: OwnerTerms)
    ensures fresh(o) && o.Valid() && !o.isDisposed && AllLive(o.entries, MAX_TERM_FLOOD) && o.nextId == MAX_TERM_FLOOD
  {
    o := new OwnerTerms();
    for k := 0 to MAX_TERM_FLOOD
      invariant fresh(o) && o.Valid() && !o.isDisposed && o.nextId == k && AllLive(o.entries, k)
    {
      HearOfLiveTerm(o, k);
    }
  }

  /** A table full of live terms is left as it is by one more check. */
  lemma FullOfLiveIsLeft(was: seq<Known>, e: Known, current: Option<TermId>, left: seq<Known>)
    requires |was| == MAX_TERM_FLOOD && e.phase.Checking? && Kept(was + [e], current, left)
    requires forall j :: 0 <= j < |was| ==> was[j].phase.Live?
    ensures left == was
  {
    var i :| 0 <= i < |was + [e]| && IsVictim(was + [e], current, i) && left == WithoutAt(was + [e], i);
    NewestIsVictimOfLive(was, e, current, i);
  }

  /** A run in which the newest claim is not checked: the record of the term it names is dropped at once. */
  method SeventeenthIsNotChecked() returns (o: OwnerTerms)
    ensures fresh(o) && o.Valid() && AllLive(o.entries, MAX_TERM_FLOOD)
    ensures !Knows(o.entries, ClaimOf(MAX_TERM_FLOOD).term) && o.nextId == MAX_TERM_FLOOD + 1
  {
    o := HearOfSixteen();
    ghost var was, message := o.entries, o.received;
    var claim := ClaimOf(MAX_TERM_FLOOD);
    assert !Knows(was, claim.term);
    o.AuthorizeClaim(claim);
    FullOfLiveIsLeft(was, Unchecked(MAX_TERM_FLOOD, claim, message), o.current, o.entries);
  }
}
