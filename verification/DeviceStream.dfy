/**
 * The bytes a device is handed over a whole term: the writes of `PortSupervisor.#write` of
 * `src/owner/port-supervisor.ts`, taken one at a time and in the order they were queued, as `WriteQueue`
 * proves of its jobs. What the device does with each chunk, and when, is any sequence of steps.
 */
module DeviceStream {
  import opened Basics

  /** The running job: before its first chunk, with a chunk ending at `upTo` at the device, or with one that stalled. */
  datatype Job = NoJob | Unbegun(key: nat) | AtDevice(key: nat, upTo: nat) | Stalled(key: nat)

  datatype State = State(
    payloads: seq<seq<Byte>>,      // every write handed to the port, by key
    outcomes: map<nat, Outcome>,   // what its caller was told
    taken: nat,                    // every key below was taken from the queue, or withdrawn
    job: Job,
    order: seq<nat>,               // the writes that have begun, in the order they began
    parts: map<nat, seq<Byte>>,    // what was handed over of each of them
    stream: seq<Byte>)             // everything handed over, in order

  const New := State([], map[], 0, NoJob, [], map[], [])

  predicate IsWaiting(s: State, k: nat) { s.taken <= k < |s.payloads| && k !in s.outcomes }

  function UpTo(from: nat, length: nat, maxChunk: nat): nat {
    if from + maxChunk <= length then from + maxChunk else length
  }

  datatype Step =
    | Submit(payload: seq<Byte>)
    | Expire(key: nat)             // its deadline passes in the queue
    | Take(key: nat)               // the queue starts it
    | GoBack(outcome: Outcome)     // late, without a port, or without its issuer's leave
    | Begin                        // the first chunk is handed over
    | ChunkTaken | ChunkFails | ChunkStalls
    | StallEnds

  predicate Enabled(s: State, step: Step) {
    match step
    case Submit(_) => true
    case Expire(k) => IsWaiting(s, k)
    case Take(k) => s.job.NoJob? && IsWaiting(s, k) && forall k' :: s.taken <= k' < k ==> !IsWaiting(s, k')
    case GoBack(outcome) => s.job.Unbegun? && SaysNotBegun(outcome)
    case Begin => s.job.Unbegun? && s.job.key < |s.payloads|
    case ChunkTaken => s.job.AtDevice? && s.job.key < |s.payloads| && s.job.key in s.parts
    case ChunkFails => s.job.AtDevice?
    case ChunkStalls => s.job.AtDevice?
    case StallEnds => s.job.Stalled?
  }

  /** The caller is told, and the queue is free for the next job. */
  function EndJob(s: State, outcome: Outcome): State
    requires !s.job.NoJob?
  {
    s.(outcomes := s.outcomes[s.job.key := outcome], job := NoJob)
  }

  function FirstChunk(s: State, maxChunk: nat): State
    requires Enabled(s, Begin)
  {
    var k := s.job.key;
    var upTo := UpTo(0, |s.payloads[k]|, maxChunk);
    var chunk := s.payloads[k][..upTo];
    s.(job := AtDevice(k, upTo), order := s.order + [k], parts := s.parts[k := chunk], stream := s.stream + chunk)
  }

  function NextChunk(s: State, maxChunk: nat): State
    requires Enabled(s, ChunkTaken) && s.job.upTo < |s.payloads[s.job.key]|
  {
    var k := s.job.key;
    var upTo := UpTo(s.job.upTo, |s.payloads[k]|, maxChunk);
    var chunk := s.payloads[k][s.job.upTo..upTo];
    s.(job := AtDevice(k, upTo), parts := s.parts[k := s.parts[k] + chunk], stream := s.stream + chunk)
  }

  function After(s: State, step: Step, maxChunk: nat): State
    requires Enabled(s, step)
  {
    match step
    case Submit(payload) => s.(payloads := s.payloads + [payload])
    case Expire(k) => s.(outcomes := s.outcomes[k := Timeout(false)])
    case Take(k) => s.(taken := k + 1, job := Unbegun(k))
    case GoBack(outcome) => EndJob(s, outcome)
    case Begin => FirstChunk(s, maxChunk)
    case ChunkTaken =>
      if s.job.upTo < |s.payloads[s.job.key]| then NextChunk(s, maxChunk) else EndJob(s, Written)
    case ChunkFails => EndJob(s, WriteFailed)
    case ChunkStalls => s.(outcomes := s.outcomes[s.job.key := Timeout(true)], job := Stalled(s.job.key))
    case StallEnds => s.(job := NoJob)
  }

  // --- What every step keeps --------------------------------------------------------------------

  function PartsInOrder(order: seq<nat>, parts: map<nat, seq<Byte>>): seq<seq<Byte>>
    requires forall k :: k in order ==> k in parts
  {
    seq(|order|, i requires 0 <= i < |order| => parts[order[i]])
  }

  /** What the writes named by `order` have contributed, one after another. */
  function Concatenated(order: seq<nat>, parts: map<nat, seq<Byte>>): seq<Byte>
    requires forall k :: k in order ==> k in parts
  {
    Flat(PartsInOrder(order, parts))
  }

  lemma PartIsAppended(order: seq<nat>, parts: map<nat, seq<Byte>>, k: nat, bytes: seq<Byte>)
    requires forall x :: x in order ==> x in parts && x != k
    ensures Concatenated(order + [k], parts[k := bytes]) == Concatenated(order, parts) + bytes
  {
    assert PartsInOrder(order + [k], parts[k := bytes]) == PartsInOrder(order, parts) + [bytes];
    FlatOfSum(PartsInOrder(order, parts), [bytes]);
    assert Flat([bytes]) == bytes;
  }

  lemma LastPartGrows(order: seq<nat>, parts: map<nat, seq<Byte>>, more: seq<Byte>)
    requires order != [] && Ascending(order) && forall x :: x in order ==> x in parts
    ensures var k := order[|order| - 1];
            Concatenated(order, parts[k := parts[k] + more]) == Concatenated(order, parts) + more
  {
    var k := order[|order| - 1];
    var pieces := PartsInOrder(order, parts);
    var pieces' := PartsInOrder(order, parts[k := parts[k] + more]);
    var n := |order| - 1;
    assert pieces[..n + 1] == pieces && pieces'[..n + 1] == pieces' && pieces'[..n] == pieces[..n];
    FlatOfOneMore(pieces, n);
    FlatOfOneMore(pieces', n);
  }

  /** The begun writes began in the order of their keys. */
  ghost predicate OrderOk(order: seq<nat>, parts: map<nat, seq<Byte>>, taken: nat) {
    Ascending(order) && (forall k :: k in order <==> k in parts) && (forall k :: k in parts ==> k < taken)
  }

  /** The stream is a prefix of each begun write's payload, in the order in which the writes were queued. */
  ghost predicate StreamOk(s: State) {
    && OrderOk(s.order, s.parts, s.taken)
    && (forall k :: k in s.parts ==> k < |s.payloads| && s.parts[k] <= s.payloads[k])
    && s.stream == Concatenated(s.order, s.parts)
  }

  /** A resolved write contributed all of its payload, and one said not to have begun contributed nothing. */
  ghost predicate ToldOk(s: State) {
    forall k :: k in s.outcomes ==>
      && k < |s.payloads|
      && (OutcomeOf(s, k) == Written ==> k in s.parts && s.parts[k] == s.payloads[k])
      && (SaysNotBegun(OutcomeOf(s, k)) <==> k !in s.parts)
  }

  function OutcomeOf(s: State, k: nat): Outcome
    requires k in s.outcomes
  {
    s.outcomes[k]
  }

  /** Every write taken has ended, but for the running one, which is the last one taken. */
  ghost predicate JobOk(s: State) {
    && s.taken <= |s.payloads|
    && (forall k :: 0 <= k < s.taken && k !in s.outcomes ==> !s.job.NoJob? && s.job.key == k)
    && match s.job
       case NoJob => true
       case Unbegun(k) => k + 1 == s.taken && k !in s.parts && k !in s.outcomes
       case AtDevice(k, upTo) =>
         HasHanded(s, k) && k !in s.outcomes && upTo <= |s.payloads[k]| && s.parts[k] == s.payloads[k][..upTo]
       case Stalled(k) => HasHanded(s, k) && k in s.outcomes
  }

  ghost predicate HasHanded(s: State, k: nat) {
    k + 1 == s.taken && s.order != [] && s.order[|s.order| - 1] == k && k in s.parts && k < |s.payloads|
  }

  ghost predicate Inv(s: State) { StreamOk(s) && ToldOk(s) && JobOk(s) }

  lemma SubmitKeepsInv(s: State, payload: seq<Byte>)
    requires Inv(s)
    ensures Inv(s.(payloads := s.payloads + [payload]))
  {
  }

  lemma ExpireKeepsInv(s: State, k: nat)
    requires Inv(s) && IsWaiting(s, k)
    ensures Inv(s.(outcomes := s.outcomes[k := Timeout(false)]))
  {
  }

  lemma TakeKeepsInv(s: State, k: nat)
    requires Inv(s) && Enabled(s, Take(k))
    ensures Inv(s.(taken := k + 1, job := Unbegun(k)))
  {
    forall k' | s.taken <= k' < k
      ensures k' in s.outcomes
    {
      assert !IsWaiting(s, k');
    }
  }

  /** The running job may end as it says it does: unbegun, or whole, or not. */
  lemma EndKeepsInv(s: State, outcome: Outcome)
    requires Inv(s) && (s.job.Unbegun? || s.job.AtDevice?)
    requires SaysNotBegun(outcome) <==> s.job.Unbegun?
    requires outcome == Written ==> s.job.upTo == |s.payloads[s.job.key]|
    ensures Inv(EndJob(s, outcome))
  {
  }

  lemma StallKeepsInv(s: State)
    requires Inv(s) && s.job.AtDevice?
    ensures Inv(s.(outcomes := s.outcomes[s.job.key := Timeout(true)], job := Stalled(s.job.key)))
  {
  }

  lemma StallEndKeepsInv(s: State)
    requires Inv(s) && s.job.Stalled?
    ensures Inv(s.(job := NoJob))
  {
  }

  lemma BeginKeepsStream(s: State, s': State, k: nat, chunk: seq<Byte>)
    requires StreamOk(s) && k + 1 == s.taken && k !in s.parts && k < |s.payloads| && chunk <= s.payloads[k]
    requires s'.taken == s.taken && s'.payloads == s.payloads
    requires s'.order == s.order + [k] && s'.parts == s.parts[k := chunk] && s'.stream == s.stream + chunk
    ensures StreamOk(s')
  {
    assert s'.stream == Concatenated(s'.order, s'.parts) && OrderOk(s'.order, s'.parts, s'.taken) by {
      BeginKeepsOrder(s.order, s.parts, k, chunk);
    }
    forall x | x in s'.parts
      ensures x < |s'.payloads| && s'.parts[x] <= s'.payloads[x]
    {
      if x != k { assert x in s.parts; }
    }
  }

  lemma BeginKeepsInv(s: State, maxChunk: nat)
    requires Inv(s) && Enabled(s, Begin)
    ensures Inv(FirstChunk(s, maxChunk))
  {
    var k := s.job.key;
    BeginKeepsStream(s, FirstChunk(s, maxChunk), k, s.payloads[k][..UpTo(0, |s.payloads[k]|, maxChunk)]);
    BeginKeepsAnswers(s, maxChunk);
  }

  lemma BeginKeepsAnswers(s: State, maxChunk: nat)
    requires ToldOk(s) && JobOk(s) && Enabled(s, Begin)
    ensures ToldOk(FirstChunk(s, maxChunk)) && JobOk(FirstChunk(s, maxChunk))
  {
  }

  lemma BeginKeepsOrder(order: seq<nat>, parts: map<nat, seq<Byte>>, k: nat, chunk: seq<Byte>)
    requires OrderOk(order, parts, k + 1) && k !in parts
    ensures OrderOk(order + [k], parts[k := chunk], k + 1)
    ensures Concatenated(order + [k], parts[k := chunk]) == Concatenated(order, parts) + chunk
  {
    assert forall i :: 0 <= i < |order| ==> order[i] in order;
    PartIsAppended(order, parts, k, chunk);
  }

  lemma ChunkKeepsStream(s: State, s': State, k: nat, upTo: nat, chunk: seq<Byte>)
    requires StreamOk(s) && HasHanded(s, k) && upTo <= |s.payloads[k]| && s.parts[k] + chunk == s.payloads[k][..upTo]
    requires s'.taken == s.taken && s'.payloads == s.payloads && s'.order == s.order
    requires s'.parts == s.parts[k := s.parts[k] + chunk] && s'.stream == s.stream + chunk
    ensures StreamOk(s')
  {
    assert s'.stream == Concatenated(s'.order, s'.parts) by {
      LastPartGrows(s.order, s.parts, chunk);
    }
    assert s.order[|s.order| - 1] in s.order;
    forall x | x in s'.parts
      ensures x < |s'.payloads| && s'.parts[x] <= s'.payloads[x]
    {
      if x != k { assert x in s.parts; }
    }
  }

  lemma NextChunkKeepsInv(s: State, maxChunk: nat)
    requires Inv(s) && Enabled(s, ChunkTaken) && s.job.upTo < |s.payloads[s.job.key]|
    ensures Inv(NextChunk(s, maxChunk))
  {
    var k, from := s.job.key, s.job.upTo;
    var upTo := UpTo(from, |s.payloads[k]|, maxChunk);
    assert s.payloads[k][..from] + s.payloads[k][from..upTo] == s.payloads[k][..upTo];
    ChunkKeepsStream(s, NextChunk(s, maxChunk), k, upTo, s.payloads[k][from..upTo]);
  }

  lemma StepKeepsInv(s: State, step: Step, maxChunk: nat)
    requires Inv(s) && Enabled(s, step)
    ensures Inv(After(s, step, maxChunk))
  {
    match step
    case Submit(payload) => SubmitKeepsInv(s, payload);
    case Expire(k) => ExpireKeepsInv(s, k);
    case Take(k) => TakeKeepsInv(s, k);
    case GoBack(outcome) => EndKeepsInv(s, outcome);
    case Begin => BeginKeepsInv(s, maxChunk);
    case ChunkTaken =>
      if s.job.upTo < |s.payloads[s.job.key]| {
        NextChunkKeepsInv(s, maxChunk);
      } else {
        EndKeepsInv(s, Written);
      }
    case ChunkFails => EndKeepsInv(s, WriteFailed);
    case ChunkStalls => StallKeepsInv(s);
    case StallEnds => StallEndKeepsInv(s);
  }

  // --- Whole runs -------------------------------------------------------------------------------

  ghost predicate IsRun(run: seq<State>, steps: seq<Step>, maxChunk: nat) {
    && maxChunk > 0 && |run| == |steps| + 1 && run[0] == New
    && forall i :: 0 <= i < |steps| ==> Enabled(run[i], steps[i]) && run[i + 1] == After(run[i], steps[i], maxChunk)
  }

  lemma {:induction false} RunKeepsInv(run: seq<State>, steps: seq<Step>, maxChunk: nat, n: nat)
    requires IsRun(run, steps, maxChunk) && n <= |steps|
    ensures Inv(run[n])
    decreases n
  {
    if n > 0 {
      RunKeepsInv(run, steps, maxChunk, n - 1);
      StepKeepsInv(run[n - 1], steps[n - 1], maxChunk);
    }
  }

  /**
   * At every point of every run, what the device was handed is one prefix of each begun write's payload, in
   * the order in which the writes were queued: the bytes of two writes never interleave.
   */
  lemma StreamIsOnePrefixOfEachWrite(run: seq<State>, steps: seq<Step>, maxChunk: nat, n: nat)
    requires IsRun(run, steps, maxChunk) && n <= |steps|
    ensures var s := run[n];
            && (forall i, j :: 0 <= i < j < |s.order| ==> s.order[i] < s.order[j])
            && (forall k :: k in s.order ==> k < |s.payloads| && k in s.parts && s.parts[k] <= s.payloads[k])
            && s.stream == Concatenated(s.order, s.parts)
  {
    RunKeepsInv(run, steps, maxChunk, n);
  }

  /**
   * A resolved write is in the stream as a whole, and one whose caller was told that it did not begin is not in it
   * at all.
   */
  lemma OutcomeIsHonest(run: seq<State>, steps: seq<Step>, maxChunk: nat, n: nat, k: nat)
    requires IsRun(run, steps, maxChunk) && n <= |steps| && k in run[n].outcomes
    ensures k < |run[n].payloads|
    ensures run[n].outcomes[k] == Written ==>
              k in run[n].order && k in run[n].parts && run[n].parts[k] == run[n].payloads[k]
    ensures SaysNotBegun(run[n].outcomes[k]) <==> k !in run[n].order
  {
    RunKeepsInv(run, steps, maxChunk, n);
    assert OutcomeOf(run[n], k) == run[n].outcomes[k];
  }

  lemma StepIsFinal(s: State, step: Step, maxChunk: nat)
    requires Inv(s) && Enabled(s, step)
    ensures var s' := After(s, step, maxChunk); s.stream <= s'.stream && s.payloads <= s'.payloads
    ensures forall k :: k in s.outcomes ==>
              k in After(s, step, maxChunk).outcomes && After(s, step, maxChunk).outcomes[k] == s.outcomes[k]
  {
  }

  lemma {:induction false} OutcomeStays(run: seq<State>, steps: seq<Step>, maxChunk: nat, m: nat, n: nat, k: nat)
    requires IsRun(run, steps, maxChunk) && m <= n <= |steps| && k in run[m].outcomes
    ensures k in run[n].outcomes && run[n].outcomes[k] == run[m].outcomes[k]
    decreases n
  {
    if m < n {
      OutcomeStays(run, steps, maxChunk, m, n - 1, k);
      RunKeepsInv(run, steps, maxChunk, n - 1);
      StepIsFinal(run[n - 1], steps[n - 1], maxChunk);
    }
  }

  /** What a caller was told stays true: no outcome changes, and a write said not to have begun never begins. */
  lemma OutcomeIsFinal(run: seq<State>, steps: seq<Step>, maxChunk: nat, m: nat, n: nat, k: nat)
    requires IsRun(run, steps, maxChunk) && m <= n <= |steps| && k in run[m].outcomes
    ensures k in run[n].outcomes && run[n].outcomes[k] == run[m].outcomes[k]
    ensures SaysNotBegun(run[m].outcomes[k]) ==> k !in run[n].order
  {
    OutcomeStays(run, steps, maxChunk, m, n, k);
    OutcomeIsHonest(run, steps, maxChunk, n, k);
  }
}
