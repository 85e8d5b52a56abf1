/**
 * Bytes received from a socket and not yet parsed, kept as the chunks they arrived in: the class
 * `ByteQueue` of `emulator/src/byte-queue.ts`. Asking for more bytes than are queued is answered with
 * `None`, which stands for the error thrown.
 */
module ByteQueue {
  import opened Basics

  /** Cutting a piece in two, the first half joined to what is before it, keeps the bytes. */
  lemma SplittingKeeps(before: seq<Byte>, chunk: seq<Byte>, at: nat, rest: seq<seq<Byte>>)
    requires at <= |chunk|
    ensures Flat([before + chunk[..at], chunk[at..]] + rest) == before + (chunk + Flat(rest))
    ensures before + chunk[..at] == (before + (chunk + Flat(rest)))[..|before| + at]
  {
    var two := [before + chunk[..at], chunk[at..]];
    FlatOfSum(two, rest);
    assert two[1..] == [chunk[at..]] && Flat(two) == before + chunk[..at] + chunk[at..];
    assert chunk == chunk[..at] + chunk[at..];
  }

  class ByteQueue {
    /** What has not been read yet, in the pieces it came in; none of them is empty. */
    var chunks: seq<seq<Byte>>
    var length: nat

    function Contents(): seq<Byte>
      reads this
    {
      Flat(chunks)
    }

    ghost predicate Valid()
      reads this
    {
      length == |Contents()| && forall i :: 0 <= i < |chunks| ==> chunks[i] != []
    }

    constructor ()
      ensures Valid() && Contents() == []
    {
      chunks, length := [], 0;
    }

    method Push(chunk: seq<Byte>)
      requires Valid()
      modifies this
      ensures Valid() && Contents() == old(Contents()) + chunk
    {
      if chunk == [] { return; }
      FlatOfSum(chunks, [chunk]);
      assert Flat([chunk]) == chunk;
      chunks := chunks + [chunk];
      length := length + |chunk|;
    }

    /** The first `count` bytes, which stay queued. The pieces they came in may be joined into one. */
    method Peek(count: nat) returns (bytes: Option<seq<Byte>>)
      requires Valid()
      modifies this`chunks
      ensures Valid() && Contents() == old(Contents())
      ensures bytes == if count <= |Contents()| then Some(Contents()[..count]) else None
    {
      if count > length { return None; }
      if count == 0 { return Some([]); }
      if |chunks[0]| >= count {
        assert Contents()[..count] == chunks[0][..count] by {
          assert Contents() == chunks[0] + Flat(chunks[1..]);
        }
        return Some(chunks[0][..count]);
      }
      var joined, used := [], 0;
      while |joined| < count
        invariant chunks == old(chunks) && used <= |chunks| && joined == Flat(chunks[..used]) && |joined| <= count
        decreases |chunks| - used
      {
        FlatOfSplit(chunks, used);
        assert chunks[used..] != [];
        FlatOfOneMore(chunks, used);
        var chunk := chunks[used];
        var taken := if |chunk| <= count - |joined| then |chunk| else count - |joined|;
        if taken < |chunk| {
          // What is left of this piece stays behind.
          SplittingKeeps(joined, chunk, taken, chunks[used + 1..]);
          joined := joined + chunk[..taken];
          chunks := [joined, chunk[taken..]] + chunks[used + 1..];
          return Some(joined);
        }
        joined := joined + chunk;
        used := used + 1;
      }
      FlatOfSplit(chunks, used);
      FlatOfSum([joined], chunks[used..]);
      assert Flat([joined]) == joined;
      chunks := [joined] + chunks[used..];
      bytes := Some(joined);
    }

    /** Removes exactly the first `count` bytes. */
    method Discard(count: nat) returns (ok: bool)
      requires Valid()
      modifies this
      ensures Valid() && ok == (count <= |old(Contents())|)
      ensures Contents() == if ok then old(Contents())[count..] else old(Contents())
    {
      if count > length { return false; }
      ghost var was := Contents();
      var remaining := count;
      length := length - count;
      ok := true;
      while remaining > 0
        invariant 0 <= remaining <= |Flat(chunks)| && Flat(chunks)[remaining..] == was[count..]
        invariant forall i :: 0 <= i < |chunks| ==> chunks[i] != []
        invariant length == |was| - count
        decreases |chunks|
      {
        var first := chunks[0];
        if |first| > remaining {
          assert Flat(chunks)[remaining..] == first[remaining..] + Flat(chunks[1..]);
          chunks := [first[remaining..]] + chunks[1..];
          return;
        }
        assert Flat(chunks)[remaining..] == Flat(chunks[1..])[remaining - |first|..];
        chunks := chunks[1..];
        remaining := remaining - |first|;
      }
      assert Flat(chunks)[0..] == Flat(chunks);
    }
  }
}
