/**
 * Jobs run strictly one after another: the class `WriteQueue` of `src/owner/write-queue.ts`.
 *
 * A job is a number, given when it is queued. That the microtask which starts the next job runs, and
 * that the running job settles, are calls of `Microtask` and `JobSettled`.
 */
module WriteQueue {
  import opened Basics

  datatype End = Settled | Withdrawn

  class WriteQueue {
    /** Jobs that have not begun, oldest first, by key. */
    var waiting: seq<nat>
    var running: Option<nat>
    var nextKey: nat
    var isStartScheduled: bool
    /** The jobs whose `finished` signal has been given, and how each ended. */
    var finished: map<nat, End>
    /** Every job begun so far, in the order of their beginning. */
    ghost var begun: seq<nat>

    ghost predicate Consistent()
      reads this
    {
      // Jobs begin in the order they were queued: the waiting ones are all behind those begun.
      && Ascending(begun + waiting)
      && (forall i :: 0 <= i < |begun + waiting| ==> (begun + waiting)[i] < nextKey)
      // At most one runs, and it is the last one begun; every other one begun has settled.
      && (running.Some? ==> begun != [] && running.value == begun[|begun| - 1])
      && (forall k :: k in begun ==> (running == Some(k) <==> k !in finished))
      // Every job queued is waiting, running, or finished - exactly one of them.
      && (forall k: nat :: k < nextKey <==> k in finished || k in waiting || running == Some(k))
      && (forall k :: k in waiting ==> k !in finished)
      && (forall k :: k in finished ==> (finished[k] == Settled <==> k in begun))
    }

    ghost predicate Valid()
      reads this
    {
      && Consistent()
      // No lost wake-up.
      && (waiting != [] && running.None? ==> isStartScheduled)
    }

    constructor ()
      ensures Valid() && nextKey == 0 && running.None? && waiting == [] && begun == []
    {
      waiting, running, nextKey, isStartScheduled, finished, begun := [], None, 0, false, map[], [];
    }

    /** Queues a job behind everything already queued. */
    method Enqueue() returns (key: nat)
      requires Valid()
      modifies this
      ensures Valid() && key == old(nextKey) && nextKey == key + 1
      ensures waiting == old(waiting) + [key] && running == old(running)
      ensures begun == old(begun) && finished == old(finished)
    {
      key := nextKey;
      nextKey := nextKey + 1;
      waiting := waiting + [key];
      assert begun + waiting == (begun + old(waiting)) + [key];
      ScheduleStart();
    }

    /** Takes a job out, if it has not begun; otherwise it runs to its own end. */
    method Withdraw(key: nat) returns (withdrawn: bool)
      requires Valid()
      modifies this
      ensures Valid() && begun == old(begun) && running == old(running) && nextKey == old(nextKey)
      ensures withdrawn <==> key in old(waiting)
      ensures finished == if withdrawn then old(finished)[key := Withdrawn] else old(finished)
      ensures forall k :: k in waiting <==> k in old(waiting) && k != key
    {
      if i :| 0 <= i < |waiting| && waiting[i] == key {
        ghost var was := waiting;
        waiting := waiting[..i] + waiting[i + 1..];
        finished := finished[key := Withdrawn];
        withdrawn := true;
        WithdrawKeepsOrder(was, i);
      } else {
        withdrawn := false;
      }
    }

    lemma WithdrawKeepsOrder(was: seq<nat>, i: nat)
      requires i < |was| && waiting == was[..i] + was[i + 1..] && Ascending(begun + was)
      requires forall k :: 0 <= k < |begun + was| ==> (begun + was)[k] < nextKey
      ensures forall k :: 0 <= k < |begun + waiting| ==> (begun + waiting)[k] < nextKey
      ensures Ascending(begun + waiting) && was[i] !in begun && was[i] !in waiting
      ensures forall k :: k in was <==> k in waiting || k == was[i]
    {
      var before, now := begun + was, begun + waiting;
      assert forall k :: 0 <= k < |now| ==> now[k] == before[if k < |begun| + i then k else k + 1];
      assert before[|begun| + i] == was[i];
      assert forall k :: 0 <= k < |begun| ==> before[k] == begun[k];
      assert was == was[..i] + [was[i]] + was[i + 1..];
      assert forall k :: 0 <= k < |waiting| ==> waiting[k] == now[|begun| + k];
    }

    /** Jobs begin in the order they were queued: every waiting one was queued after every one begun. */
    lemma WaitingHasNotBegun()
      requires Consistent()
      ensures Ascending(begun)
      ensures forall k, l :: k in begun && l in waiting ==> k < l
      ensures running.Some? ==> forall k :: k in begun ==> k <= running.value
    {
      var all := begun + waiting;
      assert forall i :: 0 <= i < |begun| ==> all[i] == begun[i];
      assert forall i :: 0 <= i < |waiting| ==> all[|begun| + i] == waiting[i];
    }

    /** What `drain` waits for: every job queued so far that has not ended. */
    method Drain() returns (pending: set<nat>)
      requires Valid()
      ensures forall k: nat :: k in pending <==> k < nextKey && k !in finished
    {
      pending := set k | k in waiting;
      if running.Some? {
        pending := pending + {running.value};
        assert running.value in begun;
      }
    }

    method ScheduleStart()
      modifies this`isStartScheduled
      ensures isStartScheduled == (old(isStartScheduled) || running.None?)
    {
      if running.Some? || isStartScheduled {
        return;
      }
      isStartScheduled := true;
    }

    /** The scheduled microtask runs. */
    method Microtask()
      requires Valid() && isStartScheduled
      modifies this
      ensures Valid() && finished == old(finished) && nextKey == old(nextKey) && !isStartScheduled
      ensures old(running).Some? || old(waiting) == [] ==>
                begun == old(begun) && waiting == old(waiting) && running == old(running)
      ensures old(running).None? && old(waiting) != [] ==>
                && begun == old(begun) + [old(waiting)[0]]
                && waiting == old(waiting)[1..] && running == Some(old(waiting)[0])
    {
      isStartScheduled := false;
      StartNext();
    }

    /** The running job's promise settles, and the next one is started at once. */
    method JobSettled()
      requires Valid() && running.Some?
      modifies this
      ensures Valid() && finished == old(finished)[old(running).value := Settled] && nextKey == old(nextKey)
      ensures old(waiting) == [] ==> begun == old(begun) && waiting == [] && running.None?
      ensures old(waiting) != [] ==>
                && begun == old(begun) + [old(waiting)[0]]
                && waiting == old(waiting)[1..] && running == Some(old(waiting)[0])
    {
      assert running.value in begun;
      assert begun[|begun| - 1] == (begun + waiting)[|begun| - 1];
      assert forall i :: 0 <= i < |waiting| ==> waiting[i] == (begun + waiting)[|begun| + i];
      finished := finished[running.value := Settled];
      running := None;
      StartNext();
    }

    method StartNext()
      requires Consistent()
      modifies this`waiting, this`running, this`begun
      ensures Valid()
      ensures old(running).Some? || old(waiting) == [] ==>
                begun == old(begun) && waiting == old(waiting) && running == old(running)
      ensures old(running).None? && old(waiting) != [] ==>
                && begun == old(begun) + [old(waiting)[0]]
                && waiting == old(waiting)[1..] && running == Some(old(waiting)[0])
    {
      if running.Some? || waiting == [] {
        return;
      }
      var key := waiting[0];
      assert waiting == [key] + waiting[1..];
      assert begun + waiting == (begun + [key]) + waiting[1..];
      waiting := waiting[1..];
      running := Some(key);
      begun := begun + [key];
      assert key !in old(begun) by {
        assert (old(begun) + old(waiting))[|old(begun)|] == key;
        assert forall i :: 0 <= i < |old(begun)| ==> (old(begun) + old(waiting))[i] == old(begun)[i];
      }
    }
  }
}
