/** Names shared by the whole model: identifiers, optional values and the ends a write can come to. */
module Basics {

  // Identifiers are only ever compared, so numbers stand for the strings the program uses.
  type ClientId = int
  type RequestId = int
  type TermId = int

  type Byte = b: int | 0 <= b < 256 witness 0

  datatype Option<+T> = None | Some(value: T)

  /** A write, named as the tab holding the port names it: by the tab that issued it and its request. */
  datatype Write = Write(origin: ClientId, request: RequestId)

  /** How a write ends. Only `NotConnected` does not settle it: it goes back to its issuer. */
  datatype Outcome =
    | Written                 // resolved
    | NotConnected            // NOT_CONNECTED
    | QueueFull               // WRITE_QUEUE_FULL
    | Timeout(started: bool)  // WRITE_TIMEOUT, with the `started` its context carries
    | WriteFailed             // WRITE_FAILED
    | OwnerLost               // OWNER_LOST_DURING_WRITE
    | Released                // CONFIGURATION_RELEASED

  /** The outcomes that promise the application that nothing of the write reached the device. */
  predicate PromisesUnwritten(o: Outcome) {
    o == QueueFull || o == Timeout(false)
  }

  /** The outcomes with which a term says that it has not begun the write. */
  predicate SaysNotBegun(o: Outcome) {
    o == NotConnected || PromisesUnwritten(o)
  }

  predicate NoDuplicates<T(==)>(s: seq<T>) {
    forall i, j :: 0 <= i < j < |s| ==> s[i] != s[j]
  }

  lemma HeadIsNotInTail<T(!new)>(s: seq<T>)
    requires s != [] && NoDuplicates(s)
    ensures s[0] !in s[1..]
  {
    forall x | x in s[1..]
      ensures x != s[0]
    {
      var i :| 0 <= i < |s[1..]| && s[1..][i] == x;
      assert s[i + 1] == x;
    }
  }

  /** What is left of `s` without `x`, in order. */
  function Without<T(==,!new)>(s: seq<T>, x: T): (r: seq<T>)
    ensures x !in r
    ensures forall y :: y != x ==> (y in r <==> y in s)
    ensures |r| <= |s|
  {
    if s == [] then []
    else if s[0] == x then Without(s[1..], x)
    else [s[0]] + Without(s[1..], x)
  }

  lemma {:induction false} WithoutKeepsNoDuplicates<T(!new)>(s: seq<T>, x: T)
    requires NoDuplicates(s)
    ensures NoDuplicates(Without(s, x))
  {
    if s != [] {
      WithoutKeepsNoDuplicates(s[1..], x);
      if s[0] != x {
        var rest := Without(s[1..], x);
        assert forall y :: y in rest ==> y in s[1..];
        assert s[0] !in s[1..];
      }
    }
  }

  ghost predicate Ascending(s: seq<nat>) { forall i, j :: 0 <= i < j < |s| ==> s[i] < s[j] }

  function Min(a: real, b: real): real { if a <= b then a else b }

  function Max(a: real, b: real): real { if a >= b then a else b }

  /** One piece of bytes after another. */
  function Flat(chunks: seq<seq<Byte>>): seq<Byte> {
    if chunks == [] then [] else chunks[0] + Flat(chunks[1..])
  }

  lemma {:induction false} FlatOfSum(a: seq<seq<Byte>>, b: seq<seq<Byte>>)
    ensures Flat(a + b) == Flat(a) + Flat(b)
  {
    if a == [] {
      assert a + b == b;
    } else {
      FlatOfSum(a[1..], b);
      assert (a + b)[1..] == a[1..] + b;
    }
  }

  lemma FlatOfSplit(chunks: seq<seq<Byte>>, at: nat)
    requires at <= |chunks|
    ensures Flat(chunks) == Flat(chunks[..at]) + Flat(chunks[at..])
  {
    assert chunks == chunks[..at] + chunks[at..];
    FlatOfSum(chunks[..at], chunks[at..]);
  }

  lemma FlatOfOneMore(chunks: seq<seq<Byte>>, at: nat)
    requires at < |chunks|
    ensures Flat(chunks[..at + 1]) == Flat(chunks[..at]) + chunks[at]
    ensures Flat(chunks[at..]) == chunks[at] + Flat(chunks[at + 1..])
  {
    assert chunks[..at + 1] == chunks[..at] + [chunks[at]];
    FlatOfSum(chunks[..at], [chunks[at]]);
    assert Flat([chunks[at]]) == chunks[at];
  }
}
