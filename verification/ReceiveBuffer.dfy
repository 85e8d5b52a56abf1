/**
 * Collecting what is read from the device into fewer deliveries: `ReceiveBuffer` of
 * `src/owner/receive-buffer.ts`. Timers are moments on a clock that every call is given.
 */
module ReceiveBuffer {
  import opened Basics

  const MAX_RECEIVE_DELIVERY_BYTES: nat := 64 * 1024

  datatype Settings = Settings(idleMs: nat, maxWaitMs: nat)

  /** One delivery, and how long the last chunk in it was. */
  datatype Delivery = Delivery(data: seq<Byte>, last: nat)

  /**
   * `firstAt` and `lastAt` are when the first and the last of the buffered bytes came; they only serve the
   * specification.
   */
  datatype Buffer = Buffer(
    buffered: seq<Byte>, idleDue: Option<int>, waitDue: Option<int>, delivered: seq<Delivery>,
    firstAt: int, lastAt: int, last: nat)

  const Empty := Buffer([], None, None, [], 0, 0, 0)

  function Flush(b: Buffer): Buffer {
    var stopped := b.(idleDue := None, waitDue := None);
    if b.buffered == [] then stopped
    else stopped.(buffered := [], delivered := b.delivered + [Delivery(b.buffered, b.last)])
  }

  function Push(b: Buffer, chunk: seq<Byte>, now: int, s: Settings): Buffer {
    if chunk == [] then b
    else
      var b' := b.(buffered := b.buffered + chunk, last := |chunk|, lastAt := now,
                   firstAt := if b.buffered == [] then now else b.firstAt);
      if s.idleMs == 0 || |b'.buffered| >= MAX_RECEIVE_DELIVERY_BYTES then Flush(b')
      else b'.(idleDue := Some(now + s.idleMs),
               waitDue := if b.waitDue.Some? then b.waitDue else Some(now + s.maxWaitMs))
  }

  datatype Event = DoPush(chunk: seq<Byte>, now: int) | IdleTimer | WaitTimer | ConnectionEnds

  predicate Enabled(b: Buffer, e: Event) {
    (e.IdleTimer? ==> b.idleDue.Some?) && (e.WaitTimer? ==> b.waitDue.Some?)
  }

  function After(b: Buffer, e: Event, s: Settings): Buffer {
    match e
    case DoPush(chunk, now) => Push(b, chunk, now, s)
    case _ => Flush(b)
  }

  /** Between calls both timers are armed exactly while something is buffered, for the right moments. */
  ghost predicate Inv(b: Buffer, s: Settings) {
    && (b.buffered == [] <==> b.idleDue.None?) && (b.buffered == [] <==> b.waitDue.None?)
    && (b.buffered != [] ==> b.waitDue == Some(b.firstAt + s.maxWaitMs) && b.idleDue == Some(b.lastAt + s.idleMs))
    && (s.idleMs == 0 ==> b.buffered == [])
    && |b.buffered| < MAX_RECEIVE_DELIVERY_BYTES
    && (forall i :: 0 <= i < |b.delivered| ==> IsDelivery(b.delivered[i]))
  }

  predicate IsDelivery(d: Delivery) {
    d.data != [] && d.last > 0 && |d.data| < MAX_RECEIVE_DELIVERY_BYTES + d.last && d.last <= |d.data|
  }

  function DataOf(ds: seq<Delivery>): seq<seq<Byte>> {
    seq(|ds|, i requires 0 <= i < |ds| => ds[i].data)
  }

  /** Every byte delivered so far. */
  function Handed(ds: seq<Delivery>): seq<Byte> { Flat(DataOf(ds)) }

  ghost predicate LastOk(b: Buffer) { b.buffered != [] ==> 0 < b.last <= |b.buffered| }

  lemma FlushKeeps(b: Buffer)
    ensures Handed(Flush(b).delivered) + Flush(b).buffered == Handed(b.delivered) + b.buffered
  {
    if b.buffered != [] {
      assert DataOf(Flush(b).delivered) == DataOf(b.delivered) + [b.buffered];
      FlatOfSum(DataOf(b.delivered), [b.buffered]);
      assert Flat([b.buffered]) == b.buffered;
    }
  }

  lemma EventKeeps(b: Buffer, e: Event, s: Settings)
    requires Inv(b, s) && LastOk(b) && Enabled(b, e)
    ensures Inv(After(b, e, s), s) && LastOk(After(b, e, s))
    ensures Handed(After(b, e, s).delivered) + After(b, e, s).buffered
         == Handed(b.delivered) + b.buffered + if e.DoPush? then e.chunk else []
  {
    match e
    case DoPush(chunk, now) =>
      var b' := b.(buffered := b.buffered + chunk, last := |chunk|, lastAt := now,
                   firstAt := if b.buffered == [] then now else b.firstAt);
      FlushKeeps(b');
      assert Handed(b.delivered) + (b.buffered + chunk) == Handed(b.delivered) + b.buffered + chunk;
    case _ => FlushKeeps(b);
  }

  ghost predicate IsRun(run: seq<Buffer>, events: seq<Event>, s: Settings) {
    && |run| == |events| + 1 && run[0] == Empty
    && forall i :: 0 <= i < |events| ==> Enabled(run[i], events[i]) && run[i + 1] == After(run[i], events[i], s)
  }

  function PushedBy(events: seq<Event>, n: nat): seq<Byte>
    requires n <= |events|
  {
    if n == 0 then [] else PushedBy(events, n - 1) + if events[n - 1].DoPush? then events[n - 1].chunk else []
  }

  /**
   * Nothing is lost, added or reordered: at every moment the deliveries, followed by what is still
   * collected, are the bytes read. Every delivery is non-empty and exceeds the limit by less than its last
   * chunk, and both timers are armed exactly while bytes wait, measured from the first and the last of them.
   */
  lemma {:induction false} DeliversWhatWasRead(run: seq<Buffer>, events: seq<Event>, s: Settings, n: nat)
    requires IsRun(run, events, s) && n <= |events|
    ensures Handed(run[n].delivered) + run[n].buffered == PushedBy(events, n)
    ensures Inv(run[n], s) && LastOk(run[n])
    decreases n
  {
    if n > 0 {
      DeliversWhatWasRead(run, events, s, n - 1);
      EventKeeps(run[n - 1], events[n - 1], s);
    }
  }

  class ReceiveBuffer {
    const settings: Settings
    var chunks: seq<seq<Byte>>
    var byteLength: nat
    var idleTimer: Option<int>
    var waitTimer: Option<int>
    var delivered: seq<Delivery>
    ghost var firstAt: int
    ghost var lastAt: int
    var last: nat

    ghost function Value(): Buffer
      reads this
    {
      Buffer(Flat(chunks), idleTimer, waitTimer, delivered, firstAt, lastAt, last)
    }

    ghost predicate Valid()
      reads this
    {
      byteLength == |Flat(chunks)| && forall i :: 0 <= i < |chunks| ==> chunks[i] != []
    }

    constructor (settings: Settings)
      ensures Valid() && Value() == Empty && this.settings == settings
    {
      this.settings := settings;
      chunks, byteLength, idleTimer, waitTimer, delivered, firstAt, lastAt, last := [], 0, None, None, [], 0, 0, 0;
    }

    method Add(chunk: seq<Byte>, now: int)
      requires Valid()
      modifies this
      ensures Valid() && Value() == Push(old(Value()), chunk, now, settings)
    {
      if chunk == [] { return; }
      FlatOfSum(chunks, [chunk]);
      assert Flat([chunk]) == chunk;
      firstAt, lastAt := if chunks == [] then now else firstAt, now;
      chunks := chunks + [chunk];
      byteLength := byteLength + |chunk|;
      last := |chunk|;
      if settings.idleMs == 0 || byteLength >= MAX_RECEIVE_DELIVERY_BYTES {
        DeliverAll();
        return;
      }
      idleTimer := Some(now + settings.idleMs);
      if waitTimer.None? { waitTimer := Some(now + settings.maxWaitMs); }
    }

    method DeliverAll()
      requires Valid()
      modifies this
      ensures Valid() && Value() == Flush(old(Value()))
    {
      idleTimer, waitTimer := None, None;
      if byteLength == 0 {
        return;
      }
      var data;
      if |chunks| == 1 {
        data := chunks[0];
        assert Flat(chunks) == chunks[0];
      } else {
        data := Joined();
      }
      chunks := [];
      byteLength := 0;
      delivered := delivered + [Delivery(data, last)];
    }

    method Joined() returns (data: seq<Byte>)
      requires Valid()
      ensures data == Flat(chunks)
    {
      data := [];
      var i := 0;
      while i < |chunks|
        invariant i <= |chunks| && data == Flat(chunks[..i])
      {
        FlatOfOneMore(chunks, i);
        data := data + chunks[i];
        i := i + 1;
      }
      assert chunks[..i] == chunks;
    }
  }
}
