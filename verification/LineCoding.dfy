/**
 * The serial settings a host sends to the emulated device, and reads back from it: `decodeLineCoding` and
 * `encodeLineCoding` of `emulator/src/cdc-acm-device.ts`.
 */
module LineCoding {
  import opened Basics
  import opened Division

  const LINE_CODING_BYTES: nat := 7

  datatype StopBits = One | OneAndHalf | Two
  datatype Parity = NoParity | Odd | Even | Mark | Space

  const STOP_BITS: seq<StopBits> := [One, OneAndHalf, Two]
  const PARITIES: seq<Parity> := [NoParity, Odd, Even, Mark, Space]

  type BaudRate = b: int | 0 <= b < 0x1_0000_0000 witness 0

  datatype LineCoding = LineCoding(baudRate: BaudRate, stopBits: StopBits, parity: Parity, dataBits: Byte)

  function Decode(data: seq<Byte>): Option<LineCoding> {
    if |data| < LINE_CODING_BYTES || data[4] >= |STOP_BITS| || data[5] >= |PARITIES| then None
    else
      Some(LineCoding(data[0] + data[1] as int * 0x100 + data[2] as int * 0x1_0000 + data[3] as int * 0x100_0000,
                      STOP_BITS[data[4]], PARITIES[data[5]], data[6]))
  }

  function StopBitsIndex(s: StopBits): (at: Byte)
    ensures at < |STOP_BITS| && STOP_BITS[at] == s
  {
    match s case One => 0 case OneAndHalf => 1 case Two => 2
  }

  function ParityIndex(p: Parity): (at: Byte)
    ensures at < |PARITIES| && PARITIES[at] == p
  {
    match p case NoParity => 0 case Odd => 1 case Even => 2 case Mark => 3 case Space => 4
  }

  function Encode(c: LineCoding): seq<Byte> {
    [c.baudRate % 0x100, c.baudRate / 0x100 % 0x100, c.baudRate / 0x1_0000 % 0x100, c.baudRate / 0x100_0000,
     StopBitsIndex(c.stopBits), ParityIndex(c.parity), c.dataBits]
  }

  /** Settings read back are the settings sent, whatever follows them. */
  lemma EncodedIsDecoded(c: LineCoding, rest: seq<Byte>)
    ensures Decode(Encode(c) + rest) == Some(c)
  {
    FourBytes(c.baudRate);
    var data := Encode(c) + rest;
    assert forall i :: 0 <= i < 7 ==> data[i] == Encode(c)[i];
  }

  lemma BytesAreRead(d0: Byte, d1: Byte, d2: Byte, d3: Byte)
    ensures var b := d0 + d1 as int * 0x100 + d2 as int * 0x1_0000 + d3 as int * 0x100_0000;
            b % 0x100 == d0 && b / 0x100 % 0x100 == d1 && b / 0x1_0000 % 0x100 == d2 && b / 0x100_0000 == d3
  {
    var b := d0 + d1 as int * 0x100 + d2 as int * 0x1_0000 + d3 as int * 0x100_0000;
    Parts(d0, d1 as int + d2 as int * 0x100 + d3 as int * 0x1_0000, 0x100);
    Parts(d1, d2 as int + d3 as int * 0x100, 0x100);
    Parts(d0 + d1 as int * 0x100, d2 as int + d3 as int * 0x100, 0x1_0000);
    Parts(d2, d3, 0x100);
    Parts(d0 + d1 as int * 0x100 + d2 as int * 0x1_0000, d3, 0x100_0000);
  }

  /** What the device answers with is what it was sent, and it refuses exactly what has no meaning. */
  lemma DecodedIsEncoded(data: seq<Byte>)
    ensures Decode(data).Some? <==> |data| >= LINE_CODING_BYTES && data[4] <= 2 && data[5] <= 4
    ensures Decode(data).Some? ==> Encode(Decode(data).value) == data[..LINE_CODING_BYTES]
  {
    if Decode(data).Some? {
      BytesAreRead(data[0], data[1], data[2], data[3]);
    }
  }
}
