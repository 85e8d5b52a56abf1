/**
 * Writing at the port: `PortSupervisor.#write`, `write` and `refusalOfWrite` of
 * `src/owner/port-supervisor.ts`, over the job queue of `WriteQueue`.
 */
module PortWrites {
  import opened Basics

  // --- One write: its turn, and its chunks --------------------------------------------------------

  /** What the device does with a chunk, before the deadline. */
  datatype Answer = Accepted | Rejected | Stalls

  /** What a write finds when its turn comes: `wasOpen` before its issuer is asked, `isOpen` after. */
  datatype Turn = Turn(waitedTooLong: bool, wasOpen: bool, approved: bool, isOpen: bool)

  predicate Begins(turn: Turn) { !turn.waitedTooLong && turn.wasOpen && turn.isOpen && turn.approved }

  /** The chunks of a payload, as the device may be handed them: all of the largest size but the last. */
  ghost predicate ChunksOf(chunks: seq<seq<Byte>>, payload: seq<Byte>, maxChunk: nat) {
    && Flat(chunks) <= payload
    && (forall k :: 0 <= k < |chunks| ==> |chunks[k]| <= maxChunk)
    && (forall k :: 0 <= k < |chunks| - 1 ==> |chunks[k]| == maxChunk)
    && (forall k :: 0 <= k < |chunks| && payload != [] ==> chunks[k] != [])
  }

  /**
   * Writes a payload chunk by chunk, each handed over once the one before it was accepted. An empty
   * payload is one empty chunk. `bytesWritten` is what the caller of a failed write is told.
   */
  method WriteChunks(payload: seq<Byte>, maxChunk: nat, answers: nat -> Answer)
      returns (outcome: Outcome, handed: seq<seq<Byte>>, bytesWritten: nat)
    requires maxChunk > 0
    ensures handed != [] && ChunksOf(handed, payload, maxChunk)
    ensures forall k: nat :: k < |handed| - 1 ==> answers(k).Accepted?
    ensures outcome == match answers(|handed| - 1)
                       case Accepted => Written
                       case Rejected => WriteFailed
                       case Stalls => Timeout(true)
    ensures outcome == Written ==> Flat(handed) == payload && bytesWritten == |payload|
    ensures outcome != Written ==>
              bytesWritten == |Flat(handed[..|handed| - 1])| && (payload != [] ==> bytesWritten < |payload|)
  {
    handed := [];
    bytesWritten := 0;
    while true
      invariant bytesWritten <= |payload| && Flat(handed) == payload[..bytesWritten]
      invariant handed != [] ==> bytesWritten < |payload|
      invariant forall k :: 0 <= k < |handed| ==> |handed[k]| == maxChunk
      invariant forall k: nat :: k < |handed| ==> answers(k).Accepted?
      decreases |payload| - bytesWritten
    {
      var upTo := if bytesWritten + maxChunk <= |payload| then bytesWritten + maxChunk else |payload|;
      var chunk := payload[bytesWritten..upTo];
      ghost var before := handed;
      handed := handed + [chunk];
      assert handed[..|handed| - 1] == before;
      FlatOfOneMore(handed, |handed| - 1);
      assert handed[..|handed|] == handed;
      match answers(|handed| - 1) {
        case Rejected => return WriteFailed, handed, bytesWritten;
        case Stalls => return Timeout(true), handed, bytesWritten;
        case Accepted => bytesWritten := upTo;
      }
      if bytesWritten == |payload| {
        return Written, handed, bytesWritten;
      }
    }
  }

  /** The job of one write: nothing reaches the device exactly when its caller is told that it has not begun. */
  method RunJob(payload: seq<Byte>, turn: Turn, maxChunk: nat, answers: nat -> Answer)
      returns (outcome: Outcome, handed: seq<seq<Byte>>)
    requires maxChunk > 0
    ensures handed != [] <==> Begins(turn)
    ensures handed == [] <==> SaysNotBegun(outcome)
    ensures ChunksOf(handed, payload, maxChunk)
    ensures outcome == Written ==> Flat(handed) == payload
    ensures !turn.waitedTooLong && !(turn.wasOpen && turn.isOpen) ==> outcome == NotConnected
    ensures turn.waitedTooLong || (turn.wasOpen && turn.isOpen && !turn.approved) ==> outcome == Timeout(false)
  {
    handed := [];
    if turn.waitedTooLong { return Timeout(false), handed; }
    if !turn.wasOpen { return NotConnected, handed; }
    if !turn.isOpen { return NotConnected, handed; }
    if !turn.approved { return Timeout(false), handed; }
    var bytesWritten;
    outcome, handed, bytesWritten := WriteChunks(payload, maxChunk, answers);
  }

  // --- What waits at the port ---------------------------------------------------------------------

  const MAX_WAITING_WRITES: nat := 4096
  const MAX_WAITING_WRITE_BYTES: nat := 64 * 1024 * 1024

  datatype Waiting = Waiting(key: nat, byteLength: nat)

  function TotalBytes(writes: seq<Waiting>): nat {
    if writes == [] then 0 else writes[0].byteLength + TotalBytes(writes[1..])
  }

  lemma {:induction false} TotalBytesOfSum(a: seq<Waiting>, b: seq<Waiting>)
    ensures TotalBytes(a + b) == TotalBytes(a) + TotalBytes(b)
  {
    if a == [] {
      assert a + b == b;
    } else {
      TotalBytesOfSum(a[1..], b);
      assert (a + b)[1..] == a[1..] + b;
    }
  }

  class UnansweredWrites {
    var unanswered: seq<Waiting>
    var unansweredBytes: nat

    ghost predicate Valid()
      reads this
    {
      && (forall i, j :: 0 <= i < j < |unanswered| ==> unanswered[i].key != unanswered[j].key)
      && unansweredBytes == TotalBytes(unanswered)
      && |unanswered| <= MAX_WAITING_WRITES && unansweredBytes <= MAX_WAITING_WRITE_BYTES
    }

    constructor ()
      ensures Valid() && unanswered == []
    {
      unanswered, unansweredBytes := [], 0;
    }

    /** A write the port already holds too much for is refused, and nothing changes; any other is counted. */
    method Accept(key: nat, byteLength: nat) returns (refused: bool)
      requires Valid() && forall i :: 0 <= i < |unanswered| ==> unanswered[i].key != key
      modifies this
      ensures Valid()
      ensures refused <==>
                (old(|unanswered|) == MAX_WAITING_WRITES
                 || TotalBytes(old(unanswered)) + byteLength > MAX_WAITING_WRITE_BYTES)
      ensures unanswered == if refused then old(unanswered) else old(unanswered) + [Waiting(key, byteLength)]
    {
      refused := !(|unanswered| < MAX_WAITING_WRITES && unansweredBytes + byteLength <= MAX_WAITING_WRITE_BYTES);
      if !refused {
        TotalBytesOfSum(unanswered, [Waiting(key, byteLength)]);
        unanswered := unanswered + [Waiting(key, byteLength)];
        unansweredBytes := unansweredBytes + byteLength;
      }
    }

    method Answered(at: nat)
      requires Valid() && at < |unanswered|
      modifies this
      ensures Valid() && unanswered == old(unanswered[..at] + unanswered[at + 1..])
    {
      var was := unanswered;
      assert was == was[..at] + ([was[at]] + was[at + 1..]);
      TotalBytesOfSum(was[..at], [was[at]] + was[at + 1..]);
      TotalBytesOfSum(was[..at], was[at + 1..]);
      unanswered := was[..at] + was[at + 1..];
      unansweredBytes := unansweredBytes - was[at].byteLength;
    }
  }
}
