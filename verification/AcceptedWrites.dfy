/**
 * The writes one tab has accepted during one term of holding the port: `AcceptedWrites` of
 * `src/client/accepted-writes.ts`, as a specification on values, the class proved against it, and
 * what the record promises over any run of it.
 */
module AcceptedWrites {
  import opened Basics

  /** How many finished writes a record remembers unless told otherwise. */
  const MAX_REMEMBERED_FINISHED_WRITES: nat := 1_024

  /** `order` is the order in which the keys of `finished` were inserted, oldest first. */
  datatype Record<!Key(==,!new)> = Record(inProgress: set<Key>, finished: map<Key, Outcome>, order: seq<Key>)
  {
    ghost predicate Valid(max: nat) {
      && NoDuplicates(order)
      && (forall k :: k in order <==> k in finished)
      && |order| <= max
      && inProgress !! finished.Keys
      && NotConnected !in finished.Values
    }

    predicate Knows(k: Key) { k in inProgress || k in finished }
  }

  datatype Admission = New | InProgress | Finished(outcome: Outcome)

  function Empty<Key(!new)>(): Record<Key> { Record({}, map[], []) }

  function Verdict<Key(!new)>(r: Record<Key>, k: Key): Admission {
    if k in r.inProgress then InProgress
    else if k in r.finished then Finished(r.finished[k])
    else New
  }

  function AfterAdmit<Key(!new)>(r: Record<Key>, k: Key): Record<Key> {
    if r.Knows(k) then r else r.(inProgress := r.inProgress + {k})
  }

  /** A `NOT_CONNECTED` write is forgotten; any other end is remembered, and the oldest one dropped. */
  function AfterFinish<Key(!new)>(r: Record<Key>, k: Key, o: Outcome, max: nat): Record<Key> {
    var left := r.inProgress - {k};
    if o == NotConnected then r.(inProgress := left)
    else
      var order := if k in r.finished then r.order else r.order + [k];
      var finished := r.finished[k := o];
      if |order| > max then Record(left, finished - {order[0]}, order[1..])
      else Record(left, finished, order)
  }

  lemma AdmitKeepsValid<Key(!new)>(r: Record<Key>, k: Key, max: nat)
    requires r.Valid(max)
    ensures AfterAdmit(r, k).Valid(max)
  {
  }

  lemma FinishKeepsValid<Key(!new)>(r: Record<Key>, k: Key, o: Outcome, max: nat)
    requires r.Valid(max)
    ensures AfterFinish(r, k, o, max).Valid(max)
  {
    if o != NotConnected {
      var order := if k in r.finished then r.order else r.order + [k];
      var finished := r.finished[k := o];
      assert NoDuplicates(order);
      assert forall x :: x in order <==> x in finished;
      if |order| > max {
        assert order == [order[0]] + order[1..];
        assert order[0] !in order[1..];
      }
    }
  }

  // --- Runs -------------------------------------------------------------------------------------

  datatype Op<Key(!new)> = OpAdmit(key: Key) | OpFinish(key: Key, outcome: Outcome)

  function Apply<Key(!new)>(r: Record<Key>, op: Op<Key>, max: nat): Record<Key> {
    match op
    case OpAdmit(k) => AfterAdmit(r, k)
    case OpFinish(k, o) => AfterFinish(r, k, o, max)
  }

  function Run<Key(!new)>(r: Record<Key>, ops: seq<Op<Key>>, max: nat): Record<Key>
    decreases |ops|
  {
    if ops == [] then r else Run(Apply(r, ops[0], max), ops[1..], max)
  }

  lemma ApplyKeepsValid<Key(!new)>(r: Record<Key>, op: Op<Key>, max: nat)
    requires r.Valid(max)
    ensures Apply(r, op, max).Valid(max)
  {
    match op
    case OpAdmit(k) => AdmitKeepsValid(r, k, max);
    case OpFinish(k, o) => FinishKeepsValid(r, k, o, max);
  }

  /** How many finishes of a run are remembered ones: these are what pushes older ones out. */
  function Remembered<Key(!new)>(ops: seq<Op<Key>>): nat {
    if ops == [] then 0
    else (if ops[0].OpFinish? && ops[0].outcome != NotConnected then 1 else 0) + Remembered(ops[1..])
  }

  /** A write being written is never forgotten, however many others come and go. */
  lemma {:induction false} InProgressIsNeverForgotten<Key(!new)>(r: Record<Key>, ops: seq<Op<Key>>, k: Key, max: nat)
    requires k in r.inProgress
    requires forall i :: 0 <= i < |ops| && ops[i].OpFinish? ==> ops[i].key != k
    ensures Verdict(Run(r, ops, max), k) == InProgress
    decreases |ops|
  {
    if ops != [] {
      InProgressIsNeverForgotten(Apply(r, ops[0], max), ops[1..], k, max);
    }
  }

  /**
   * A finished write is answered with its own outcome as long as fewer than `max` finishes that are
   * remembered follow it, and its own key is not finished again.
   */
  lemma FinishedIsRemembered<Key(!new)>(r: Record<Key>, ops: seq<Op<Key>>, k: Key, o: Outcome, max: nat)
    requires r.Valid(max) && k !in r.finished && o != NotConnected
    requires Remembered(ops) < max
    requires forall i :: 0 <= i < |ops| && ops[i].OpFinish? ==> ops[i].key != k
    ensures Verdict(Run(AfterFinish(r, k, o, max), ops, max), k) == Finished(o)
  {
    var s := AfterFinish(r, k, o, max);
    FinishKeepsValid(r, k, o, max);
    assert s.order[|s.order| - 1] == k;
    RememberedFrom(s, ops, k, |s.order| - 1, max);
  }

  lemma {:induction false} RememberedFrom<Key(!new)>(r: Record<Key>, ops: seq<Op<Key>>, k: Key, at: nat, max: nat)
    requires r.Valid(max) && at < |r.order| && r.order[at] == k
    requires |r.order| - 1 - at + Remembered(ops) < max
    requires forall i :: 0 <= i < |ops| && ops[i].OpFinish? ==> ops[i].key != k
    ensures var f := Run(r, ops, max); k in r.finished && Verdict(f, k) == Finished(r.finished[k])
    decreases |ops|
  {
    if ops != [] {
      var op := ops[0];
      var s := Apply(r, op, max);
      ApplyKeepsValid(r, op, max);
      assert forall i :: 0 <= i < |ops[1..]| ==> ops[1..][i] == ops[i + 1];
      if op.OpFinish? && op.outcome != NotConnected {
        var order := if op.key in r.finished then r.order else r.order + [op.key];
        RememberedFrom(s, ops[1..], k, if |order| > max then at - 1 else at, max);
      } else {
        RememberedFrom(s, ops[1..], k, at, max);
      }
    }
  }

  // --- The class --------------------------------------------------------------------------------

  class AcceptedWrites<Key(==,!new)> {
    var inProgress: set<Key>
    /** Outcomes by key, with the order of insertion a `Map` iterates in. */
    var finished: map<Key, Outcome>
    var order: seq<Key>
    const maxFinished: nat

    function Value(): Record<Key> reads this { Record(inProgress, finished, order) }

    ghost predicate Valid() reads this { Value().Valid(maxFinished) }

    constructor (maxFinished: nat)
      ensures Valid() && Value() == Empty() && this.maxFinished == maxFinished
    {
      inProgress, finished, order := {}, map[], [];
      this.maxFinished := maxFinished;
    }

    method IsKnown(k: Key) returns (known: bool)
      ensures known <==> Verdict(Value(), k) != New
    {
      known := k in inProgress || k in finished;
    }

    method Admit(k: Key) returns (admission: Admission)
      requires Valid()
      modifies this
      ensures Valid() && Value() == AfterAdmit(old(Value()), k)
      ensures admission == Verdict(old(Value()), k)
    {
      if k in inProgress {
        return InProgress;
      }
      if k in finished {
        return Finished(finished[k]);
      }
      inProgress := inProgress + {k};
      admission := New;
    }

    method Finish(k: Key, o: Outcome)
      requires Valid()
      modifies this
      ensures Valid() && Value() == AfterFinish(old(Value()), k, o, maxFinished)
    {
      FinishKeepsValid(Value(), k, o, maxFinished);
      inProgress := inProgress - {k};
      if o == NotConnected {
        return;
      }
      if k !in finished {
        order := order + [k];
      }
      finished := finished[k := o];
      if |order| > maxFinished {
        finished := finished - {order[0]};
        order := order[1..];
      }
    }
  }
}
