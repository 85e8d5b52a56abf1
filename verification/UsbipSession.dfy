/**
 * A client's side of the wire, as `emulator/test/usbip-test-client.ts` writes it: the server reads back
 * every command a client encodes, in order, through any cutting of the stream.
 */
module UsbipSession {
  import opened Basics
  import opened Division
  import opened UsbipFraming

  type Word = w: int | 0 <= w < 0x1_0000_0000 witness 0
  type Half = h: int | 0 <= h < 0x1_0000 witness 0

  function Big(w: Word): seq<Byte> {
    [w / 0x100_0000, w / 0x1_0000 % 0x100, w / 0x100 % 0x100, w % 0x100]
  }

  function Little(h: Half): seq<Byte> { [h % 0x100, h / 0x100] }

  function Words(ws: seq<Word>): seq<Byte> {
    if ws == [] then [] else Big(ws[0]) + Words(ws[1..])
  }

  lemma BigIsRead(w: Word, rest: seq<Byte>)
    ensures |Big(w) + rest| >= 4 && U32(Big(w) + rest, 0) == w
  {
    FourBytes(w);
    var b := Big(w) + rest;
    assert b[0] == w / 0x100_0000 && b[1] == w / 0x1_0000 % 0x100 && b[2] == w / 0x100 % 0x100 && b[3] == w % 0x100;
  }

  lemma U32Shifts(a: seq<Byte>, b: seq<Byte>, at: nat)
    requires at + 4 <= |b|
    ensures U32(a + b, |a| + at) == U32(b, at)
  {
  }

  lemma {:induction false} WordsAreRead(ws: seq<Word>, k: nat, rest: seq<Byte>)
    requires k < |ws|
    ensures |Words(ws)| == 4 * |ws| && U32(Words(ws) + rest, 4 * k) == ws[k]
  {
    WordsLength(ws);
    assert Words(ws) + rest == Big(ws[0]) + (Words(ws[1..]) + rest);
    if k == 0 {
      BigIsRead(ws[0], Words(ws[1..]) + rest);
    } else {
      WordsAreRead(ws[1..], k - 1, rest);
      U32Shifts(Big(ws[0]), Words(ws[1..]) + rest, 4 * (k - 1));
    }
  }

  lemma {:induction false} WordsLength(ws: seq<Word>)
    ensures |Words(ws)| == 4 * |ws|
  {
    if ws != [] { WordsLength(ws[1..]); }
  }

  /** What a client may ask: fields that fit their width, and a buffer the server accepts. */
  ghost predicate IsEncodable(c: Command) {
    match c
    case Unlink(seqnum, target) => seqnum < 0x1_0000_0000 && target < 0x1_0000_0000
    case Submit(seqnum, isOut, endpoint, bufferLength, setup, data) =>
      && seqnum < 0x1_0000_0000 && endpoint < 0x1_0000_0000 && bufferLength < 0x1_0000_0000
      && setup.value < 0x1_0000 && setup.index < 0x1_0000 && setup.length < 0x1_0000
      && |data| == (if isOut then bufferLength else 0) && (isOut ==> bufferLength <= MAX_OUT_TRANSFER_BYTES)
  }

  ghost function SetupPacket(s: Setup): seq<Byte>
    requires s.value < 0x1_0000 && s.index < 0x1_0000 && s.length < 0x1_0000
  {
    [s.requestType, s.request] + Little(s.value) + Little(s.index) + Little(s.length)
  }

  ghost function HeaderWords(c: Command): seq<Word>
    requires IsEncodable(c)
  {
    match c
    case Unlink(seqnum, target) => [CMD_UNLINK, seqnum, 0x1_0001, 0, 0, target, 0, 0, 0, 0]
    case Submit(seqnum, isOut, endpoint, bufferLength, _, _) =>
      [CMD_SUBMIT, seqnum, 0x1_0001, if isOut then 0 else 1, endpoint, 0, bufferLength, 0, NOT_ISOCHRONOUS, 0]
  }

  ghost function Encode(c: Command): seq<Byte>
    requires IsEncodable(c)
  {
    Words(HeaderWords(c)) + if c.Submit? then SetupPacket(c.setup) + c.data else [0, 0, 0, 0, 0, 0, 0, 0]
  }

  lemma HeaderIsRead(c: Command, k: nat)
    requires IsEncodable(c) && k < 10
    ensures |Encode(c)| >= 48 && U32(Encode(c), 4 * k) == HeaderWords(c)[k]
  {
    WordsAreRead(HeaderWords(c), k, if c.Submit? then SetupPacket(c.setup) + c.data else [0, 0, 0, 0, 0, 0, 0, 0]);
  }

  lemma SetupIsRead(c: Command)
    requires IsEncodable(c) && c.Submit?
    ensures |Encode(c)| >= 48 && Encode(c)[48..] == c.data
    ensures var b := Encode(c);
            Setup(b[0x28], b[0x29], U16Little(b, 0x2a), U16Little(b, 0x2c), U16Little(b, 0x2e)) == c.setup
  {
    WordsLength(HeaderWords(c));
    var b, p := Encode(c), SetupPacket(c.setup);
    assert b == Words(HeaderWords(c)) + p + c.data;
    assert forall i :: 0 <= i < 8 ==> b[40 + i] == p[i];
  }

  /** Decoding what a client encoded gives back the command, from exactly its own bytes. */
  lemma DecodesWhatWasEncoded(c: Command)
    requires IsEncodable(c)
    ensures |Encode(c)| >= URB_HEADER_BYTES && UrbCommandLength(Encode(c)) == Ok(|Encode(c)|)
    ensures DecodeUrbCommand(Encode(c)) == c
  {
    HeaderIsRead(c, 0);
    HeaderIsRead(c, 1);
    HeaderIsRead(c, 3);
    HeaderIsRead(c, 4);
    HeaderIsRead(c, 5);
    HeaderIsRead(c, 6);
    HeaderIsRead(c, 8);
    WordsLength(HeaderWords(c));
    if c.Submit? {
      SetupIsRead(c);
      assert c.isOut ==> Encode(c)[48..48 + c.bufferLength] == c.data;
    }
  }

  ghost function EncodeAll(commands: seq<Command>): seq<Byte>
    requires forall i :: 0 <= i < |commands| ==> IsEncodable(commands[i])
  {
    if commands == [] then [] else Encode(commands[0]) + EncodeAll(commands[1..])
  }

  function AsUrbs(commands: seq<Command>): seq<Message> {
    if commands == [] then [] else [Urb(commands[0])] + AsUrbs(commands[1..])
  }

  lemma NextIsTheCommand(c: Command, rest: seq<Byte>, server: Server)
    requires IsEncodable(c)
    ensures Next(Imported, Encode(c) + rest, server) == Handled(Urb(c), |Encode(c)|, Imported)
  {
    DecodesWhatWasEncoded(c);
    SameHeader(Encode(c), |Encode(c)|);
    assert Encode(c)[..|Encode(c)|] == Encode(c);
    NextIsStable(Imported, Encode(c), rest, server);
  }

  lemma {:induction false} CommandsAreHandled(commands: seq<Command>, handled: seq<Message>, server: Server)
    requires forall i :: 0 <= i < |commands| ==> IsEncodable(commands[i])
    ensures Drain(Imported, EncodeAll(commands), handled, server) ==
            Connection(Imported, [], handled + AsUrbs(commands), None)
    decreases |commands|
  {
    if commands == [] {
      assert handled + AsUrbs(commands) == handled;
    } else {
      var c, rest := commands[0], EncodeAll(commands[1..]);
      NextIsTheCommand(c, rest, server);
      assert (Encode(c) + rest)[|Encode(c)|..] == rest;
      CommandsAreHandled(commands[1..], handled + [Urb(c)], server);
      assert handled + AsUrbs(commands) == handled + [Urb(c)] + AsUrbs(commands[1..]);
    }
  }

  /** The request that imports the device, its bus ID padded with NULs. */
  ghost function ImportRequest(): seq<Byte> {
    [0x01, 0x11, 0x80, 0x03, 0, 0, 0, 0] + BUS_ID + seq(BUS_ID_BYTES - |BUS_ID|, _ => 0)
  }

  lemma ImportIsHandled(rest: seq<Byte>, server: Server)
    requires server.isPluggedIn && !server.isImportedElsewhere
    ensures |ImportRequest()| == 40
    ensures Next(Operations, ImportRequest() + rest, server) == Handled(Attached, 40, Imported)
  {
    var b := ImportRequest() + rest;
    assert b[0] == 0x01 && b[1] == 0x11 && b[2] == 0x80 && b[3] == 0x03;
    var field := b[8..40];
    assert field[0] == 49 && field[1] == 45 && field[2] == 49 && field[3] == 0;
    assert BusId(field[3..]) == [];
    assert BusId(field[2..]) == [49];
    assert BusId(field[1..]) == [45, 49];
  }

  /**
   * A whole session: a client that imports the device and then submits and unlinks whatever it likes has
   * exactly those commands handled, in that order, however its bytes are cut into pieces on the way.
   */
  lemma {:induction false} SessionIsReadBack(commands: seq<Command>, chunks: seq<seq<Byte>>, server: Server)
    requires server.isPluggedIn && !server.isImportedElsewhere
    requires forall i :: 0 <= i < |commands| ==> IsEncodable(commands[i])
    requires Flat(chunks) == ImportRequest() + EncodeAll(commands)
    ensures FeedAll(Accepted, chunks, server) == Connection(Imported, [], [Attached] + AsUrbs(commands), None)
  {
    FeedAllIsFeed(Accepted, chunks, server);
    var b := ImportRequest() + EncodeAll(commands);
    assert [] + b == b;
    ImportIsHandled(EncodeAll(commands), server);
    assert b[40..] == EncodeAll(commands);
    assert [] + [Attached] == [Attached];
    CommandsAreHandled(commands, [Attached], server);
  }
}
