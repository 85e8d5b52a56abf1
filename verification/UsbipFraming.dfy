/**
 * How the emulator's server cuts a connection's byte stream into USB/IP messages: `#accept`, `#handleNext`
 * and `#handleUrb` of `emulator/src/usbip-server.ts` over the decoders of `emulator/src/usbip-protocol.ts`.
 * The wire format is that of the Linux kernel's `Documentation/usb/usbip_protocol.rst`.
 */
module UsbipFraming {
  import opened Basics
  import opened ByteQueue

  const USBIP_VERSION := 0x0111
  const OP_REQ_DEVLIST := 0x8005
  const OP_REQ_IMPORT := 0x8003
  const CMD_SUBMIT := 1
  const CMD_UNLINK := 2
  const OPERATION_HEADER_BYTES: nat := 8
  const BUS_ID_BYTES: nat := 32
  const URB_HEADER_BYTES: nat := 48
  const MAX_OUT_TRANSFER_BYTES: nat := 1024 * 1024
  const NOT_ISOCHRONOUS := 0xffff_ffff

  /** `1-1`, in ASCII. */
  const BUS_ID: seq<Byte> := [49, 45, 49]

  datatype Setup = Setup(requestType: Byte, request: Byte, value: nat, index: nat, length: nat)

  datatype Command =
    | Submit(seqnum: nat, isOut: bool, endpoint: nat, bufferLength: nat, setup: Setup, data: seq<Byte>)
    | Unlink(seqnum: nat, unlinkSeqnum: nat)

  datatype ProtocolError =
    | BadVersion(version: nat)
    | UnknownOperation(code: nat)
    | UnknownCommand(command: nat)
    | Isochronous
    | TooLarge(length: nat)

  datatype Result<+T> = Ok(value: T) | Fail(error: ProtocolError)

  // --- Decoders -----------------------------------------------------------------------------------

  function U16(b: seq<Byte>, at: nat): nat
    requires at + 2 <= |b|
  {
    b[at] as int * 0x100 + b[at + 1]
  }

  /** USB structures are little-endian, USB/IP ones big-endian. */
  function U16Little(b: seq<Byte>, at: nat): nat
    requires at + 2 <= |b|
  {
    b[at] + b[at + 1] as int * 0x100
  }

  function U32(b: seq<Byte>, at: nat): nat
    requires at + 4 <= |b|
  {
    U16(b, at) * 0x1_0000 + U16(b, at + 2)
  }

  /** The bytes of a field up to its first NUL. */
  function BusId(field: seq<Byte>): seq<Byte> {
    if field == [] || field[0] == 0 then [] else [field[0]] + BusId(field[1..])
  }

  /** How many bytes a command occupies, from its header alone. */
  function UrbCommandLength(header: seq<Byte>): (length: Result<nat>)
    requires |header| >= URB_HEADER_BYTES
    ensures length.Ok? ==> URB_HEADER_BYTES <= length.value <= URB_HEADER_BYTES + MAX_OUT_TRANSFER_BYTES
  {
    var command := U32(header, 0);
    if command == CMD_UNLINK then Ok(URB_HEADER_BYTES)
    else if command != CMD_SUBMIT then Fail(UnknownCommand(command))
    else if U32(header, 0x20) != NOT_ISOCHRONOUS && U32(header, 0x20) != 0 then Fail(Isochronous)
    else if U32(header, 0x0c) != 0 then Ok(URB_HEADER_BYTES)
    else if U32(header, 0x18) > MAX_OUT_TRANSFER_BYTES then Fail(TooLarge(U32(header, 0x18)))
    else Ok(URB_HEADER_BYTES + U32(header, 0x18))
  }

  /** A complete command carries exactly the bytes its header announces. */
  function DecodeUrbCommand(b: seq<Byte>): (c: Command)
    requires |b| >= URB_HEADER_BYTES && UrbCommandLength(b) == Ok(|b|)
    ensures c.Submit? ==> |c.data| == (if c.isOut then c.bufferLength else 0) && c.data == b[URB_HEADER_BYTES..]
  {
    if U32(b, 0) == CMD_UNLINK then Unlink(U32(b, 4), U32(b, 0x14))
    else
      var isOut := U32(b, 0x0c) == 0;
      Submit(U32(b, 4), isOut, U32(b, 0x10), U32(b, 0x18),
             Setup(b[0x28], b[0x29], U16Little(b, 0x2a), U16Little(b, 0x2c), U16Little(b, 0x2e)),
             if isOut then b[URB_HEADER_BYTES..URB_HEADER_BYTES + U32(b, 0x18)] else [])
  }

  // --- One message at the front of the stream -------------------------------------------------------

  datatype Message = DeviceListed | ImportRefused | Attached | Urb(command: Command)

  datatype Mode = Operations | Imported | Closing

  /** What else decides an import: whether the device is plugged in, and imported by another connection. */
  datatype Server = Server(isPluggedIn: bool, isImportedElsewhere: bool)

  datatype Outcome = Incomplete | Handled(message: Message, used: nat, mode: Mode) | Broken(error: ProtocolError)

  function NextUrb(b: seq<Byte>): Outcome {
    if |b| < URB_HEADER_BYTES then Incomplete
    else
      match UrbCommandLength(b[..URB_HEADER_BYTES])
      case Fail(e) => Broken(e)
      case Ok(length) =>
        if |b| < length then Incomplete
        else
          SameHeader(b, length);
          Handled(Urb(DecodeUrbCommand(b[..length])), length, Imported)
  }

  lemma SameHeader(b: seq<Byte>, length: nat)
    requires URB_HEADER_BYTES <= length <= |b|
    ensures UrbCommandLength(b[..length]) == UrbCommandLength(b[..URB_HEADER_BYTES])
  {
  }

  function NextOperation(b: seq<Byte>, server: Server): Outcome {
    if |b| < OPERATION_HEADER_BYTES then Incomplete
    else if U16(b, 0) != USBIP_VERSION then Broken(BadVersion(U16(b, 0)))
    else if U16(b, 2) == OP_REQ_DEVLIST then Handled(DeviceListed, OPERATION_HEADER_BYTES, Closing)
    else if U16(b, 2) != OP_REQ_IMPORT then Broken(UnknownOperation(U16(b, 2)))
    else if |b| < OPERATION_HEADER_BYTES + BUS_ID_BYTES then Incomplete
    else if IsRefused(b[OPERATION_HEADER_BYTES..OPERATION_HEADER_BYTES + BUS_ID_BYTES], server)
    then Handled(ImportRefused, OPERATION_HEADER_BYTES + BUS_ID_BYTES, Closing)
    else Handled(Attached, OPERATION_HEADER_BYTES + BUS_ID_BYTES, Imported)
  }

  predicate IsRefused(field: seq<Byte>, server: Server) {
    BusId(field) != BUS_ID || !server.isPluggedIn || server.isImportedElsewhere
  }

  function Next(mode: Mode, b: seq<Byte>, server: Server): Outcome {
    if mode.Imported? then NextUrb(b) else NextOperation(b, server)
  }

  /** What comes after a message never changes how it is read. */
  lemma NextIsStable(mode: Mode, a: seq<Byte>, b: seq<Byte>, server: Server)
    requires !Next(mode, a, server).Incomplete?
    ensures Next(mode, a + b, server) == Next(mode, a, server)
    ensures Next(mode, a, server).Handled? ==> 0 < Next(mode, a, server).used <= |a|
  {
    if mode.Imported? {
      assert (a + b)[..URB_HEADER_BYTES] == a[..URB_HEADER_BYTES];
      if Next(mode, a, server).Handled? {
        var length := UrbCommandLength(a[..URB_HEADER_BYTES]).value;
        assert (a + b)[..length] == a[..length];
      }
    } else if |a| >= OPERATION_HEADER_BYTES + BUS_ID_BYTES {
      var from, to := OPERATION_HEADER_BYTES, OPERATION_HEADER_BYTES + BUS_ID_BYTES;
      assert (a + b)[from..to] == a[from..to];
    }
  }

  lemma HandledUsesBytes(mode: Mode, b: seq<Byte>, server: Server)
    ensures Next(mode, b, server).Handled? ==> 0 < Next(mode, b, server).used <= |b|
  {
  }

  // --- A connection --------------------------------------------------------------------------------

  /** `rest` is what waits to be read; of a closing connection it is never read again, and left empty here. */
  datatype Connection = Connection(mode: Mode, rest: seq<Byte>, handled: seq<Message>, error: Option<ProtocolError>)

  const Accepted := Connection(Operations, [], [], None)

  function Drain(mode: Mode, b: seq<Byte>, handled: seq<Message>, server: Server): Connection
    decreases |b|
  {
    HandledUsesBytes(mode, b, server);
    match Next(mode, b, server)
    case Incomplete => Connection(mode, b, handled, None)
    case Broken(e) => Connection(Closing, [], handled, Some(e))
    case Handled(message, used, mode') =>
      if mode'.Closing? then Connection(Closing, [], handled + [message], None)
      else Drain(mode', b[used..], handled + [message], server)
  }

  /** What one `data` event does. */
  function Feed(c: Connection, chunk: seq<Byte>, server: Server): Connection {
    if c.mode.Closing? then c else Drain(c.mode, c.rest + chunk, c.handled, server)
  }

  function FeedAll(c: Connection, chunks: seq<seq<Byte>>, server: Server): Connection
    decreases |chunks|
  {
    if chunks == [] then c else FeedAll(Feed(c, chunks[0], server), chunks[1..], server)
  }

  /** Nothing more can be read from what is waiting. */
  predicate IsSettled(c: Connection, server: Server) {
    c.mode.Closing? || (c.error.None? && Next(c.mode, c.rest, server).Incomplete?)
  }

  lemma {:induction false} DrainSettles(mode: Mode, b: seq<Byte>, handled: seq<Message>, server: Server)
    requires !mode.Closing?
    ensures IsSettled(Drain(mode, b, handled, server), server)
    decreases |b|
  {
    HandledUsesBytes(mode, b, server);
    var next := Next(mode, b, server);
    if next.Handled? && !next.mode.Closing? {
      DrainSettles(next.mode, b[next.used..], handled + [next.message], server);
    }
  }

  /** Two pieces drained one after the other come to what they come to at once. */
  lemma {:induction false} DrainSplits(mode: Mode, a: seq<Byte>, b: seq<Byte>, handled: seq<Message>, server: Server)
    requires !mode.Closing?
    ensures Drain(mode, a + b, handled, server) == Feed(Drain(mode, a, handled, server), b, server)
    decreases |a|
  {
    var next := Next(mode, a, server);
    if !next.Incomplete? {
      NextIsStable(mode, a, b, server);
      if next.Handled? && !next.mode.Closing? {
        assert (a + b)[next.used..] == a[next.used..] + b;
        DrainSplits(next.mode, a[next.used..], b, handled + [next.message], server);
      }
    }
  }

  lemma {:induction false} FeedAllIsFeed(c: Connection, chunks: seq<seq<Byte>>, server: Server)
    requires IsSettled(c, server)
    ensures FeedAll(c, chunks, server) == Feed(c, Flat(chunks), server)
    ensures IsSettled(FeedAll(c, chunks, server), server)
    decreases |chunks|
  {
    if chunks == [] {
      assert c.rest + [] == c.rest;
    } else {
      var c' := Feed(c, chunks[0], server);
      if !c.mode.Closing? {
        DrainSettles(c.mode, c.rest + chunks[0], c.handled, server);
        DrainSplits(c.mode, c.rest + chunks[0], Flat(chunks[1..]), c.handled, server);
        assert c.rest + Flat(chunks) == c.rest + chunks[0] + Flat(chunks[1..]);
      }
      FeedAllIsFeed(c', chunks[1..], server);
    }
  }

  /**
   * However TCP cuts the same bytes into pieces, the server handles the same messages in the same order, or
   * fails at the same one with the same error, and is left waiting with the same bytes.
   */
  lemma ChunkingDoesNotMatter(some: seq<seq<Byte>>, others: seq<seq<Byte>>, server: Server)
    requires Flat(some) == Flat(others)
    ensures FeedAll(Accepted, some, server) == FeedAll(Accepted, others, server)
  {
    FeedAllIsFeed(Accepted, some, server);
    FeedAllIsFeed(Accepted, others, server);
  }

  /** While it waits for the rest of a message, the server holds less than one largest command. */
  lemma WaitsForOneMessageAtMost(chunks: seq<seq<Byte>>, server: Server)
    ensures |FeedAll(Accepted, chunks, server).rest| < URB_HEADER_BYTES + MAX_OUT_TRANSFER_BYTES
  {
    FeedAllIsFeed(Accepted, chunks, server);
    ClosingHasNothing(Accepted, chunks, server);
    var c := FeedAll(Accepted, chunks, server);
    if !c.mode.Closing? { IncompleteIsShort(c.mode, c.rest, server); }
  }

  lemma IncompleteIsShort(mode: Mode, b: seq<Byte>, server: Server)
    requires Next(mode, b, server).Incomplete?
    ensures |b| < URB_HEADER_BYTES + MAX_OUT_TRANSFER_BYTES
  {
  }

  lemma {:induction false} DrainedClosingHasNothing(mode: Mode, b: seq<Byte>, handled: seq<Message>, server: Server)
    requires !mode.Closing?
    ensures Drain(mode, b, handled, server).mode.Closing? ==> Drain(mode, b, handled, server).rest == []
    decreases |b|
  {
    HandledUsesBytes(mode, b, server);
    var next := Next(mode, b, server);
    if next.Handled? && !next.mode.Closing? {
      DrainedClosingHasNothing(next.mode, b[next.used..], handled + [next.message], server);
    }
  }

  lemma {:induction false} ClosingHasNothing(c: Connection, chunks: seq<seq<Byte>>, server: Server)
    requires c.mode.Closing? ==> c.rest == []
    ensures FeedAll(c, chunks, server).mode.Closing? ==> FeedAll(c, chunks, server).rest == []
    decreases |chunks|
  {
    if chunks != [] {
      if !c.mode.Closing? { DrainedClosingHasNothing(c.mode, c.rest + chunks[0], c.handled, server); }
      ClosingHasNothing(Feed(c, chunks[0], server), chunks[1..], server);
    }
  }

  // --- The handler of `data` events ------------------------------------------------------------------

  class UsbipConnection {
    const received: ByteQueue
    const server: Server
    var mode: Mode
    var handled: seq<Message>
    var error: Option<ProtocolError>

    function Value(): Connection
      reads this, received
    {
      Connection(mode, if mode.Closing? then [] else received.Contents(), handled, error)
    }

    ghost predicate Valid()
      reads this, received
    {
      received.Valid() && (!mode.Closing? ==> error.None?)
    }

    constructor (server: Server)
      ensures Valid() && Value() == Accepted && fresh(received) && this.server == server
    {
      received := new ByteQueue();
      this.server := server;
      mode, handled, error := Operations, [], None;
    }

    /** The message at the front of what was received, if all of it has arrived. Nothing is removed. */
    method HandleNext() returns (next: Outcome)
      requires Valid()
      modifies received
      ensures Valid() && received.Contents() == old(received.Contents())
      ensures next == Next(mode, received.Contents(), server)
    {
      if mode.Imported? {
        next := HandleUrb();
        return;
      }
      if received.length < OPERATION_HEADER_BYTES { return Incomplete; }
      var header := received.Peek(OPERATION_HEADER_BYTES);
      var version, code := U16(header.value, 0), U16(header.value, 2);
      if version != USBIP_VERSION { return Broken(BadVersion(version)); }
      if code == OP_REQ_DEVLIST { return Handled(DeviceListed, OPERATION_HEADER_BYTES, Closing); }
      if code != OP_REQ_IMPORT { return Broken(UnknownOperation(code)); }
      if received.length < OPERATION_HEADER_BYTES + BUS_ID_BYTES { return Incomplete; }
      var request := received.Peek(OPERATION_HEADER_BYTES + BUS_ID_BYTES);
      var from, to := OPERATION_HEADER_BYTES, OPERATION_HEADER_BYTES + BUS_ID_BYTES;
      assert request.value[from..] == received.Contents()[from..to];
      if IsRefused(request.value[OPERATION_HEADER_BYTES..], server) {
        return Handled(ImportRefused, OPERATION_HEADER_BYTES + BUS_ID_BYTES, Closing);
      }
      next := Handled(Attached, OPERATION_HEADER_BYTES + BUS_ID_BYTES, Imported);
    }

    method HandleUrb() returns (next: Outcome)
      requires Valid()
      modifies received
      ensures Valid() && received.Contents() == old(received.Contents())
      ensures next == NextUrb(received.Contents())
    {
      if received.length < URB_HEADER_BYTES { return Incomplete; }
      var header := received.Peek(URB_HEADER_BYTES);
      var length := UrbCommandLength(header.value);
      if length.Fail? { return Broken(length.error); }
      if received.length < length.value { return Incomplete; }
      var command := received.Peek(length.value);
      SameHeader(received.Contents(), length.value);
      next := Handled(Urb(DecodeUrbCommand(command.value)), length.value, Imported);
    }

    /** One `data` event: every message that has arrived is handled, and its bytes discarded. */
    method Data(chunk: seq<Byte>)
      requires Valid()
      modifies this, received
      ensures Valid() && Value() == Feed(old(Value()), chunk, server)
    {
      if mode.Closing? { return; }
      ghost var all := Feed(Value(), chunk, server);
      received.Push(chunk);
      var next := HandleNext();
      while next.Handled?
        invariant Valid() && !mode.Closing?
        invariant next == Next(mode, received.Contents(), server)
        invariant Drain(mode, received.Contents(), handled, server) == all
        decreases |received.Contents()|
      {
        HandledUsesBytes(mode, received.Contents(), server);
        var _ := received.Discard(next.used);
        handled := handled + [next.message];
        mode := next.mode;
        if mode.Closing? { return; }
        next := HandleNext();
      }
      if next.Broken? {
        mode, error := Closing, Some(next.error);
      }
    }
  }
}
