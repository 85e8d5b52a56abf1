/**
 * Payloads as an operator of the emulator types and reads them: `parseEscapedText` and `describeBytes` of
 * `emulator/src/payload-text.ts`.
 */
module PayloadText {
  import opened Basics
  import opened Unicode

  const BACKSLASH: Unit := 0x5c
  const QUOTE: Unit := 0x22
  const LOWER_X: Unit := 0x78

  /** `Malformed` carries the text that the error names. */
  datatype Parsed = Ok(bytes: seq<Byte>) | Malformed(escape: Text)

  /** What the character after a backslash stands for, if it is a simple escape: `r`, `n`, `t`, `\` or `"`. */
  function SimpleEscape(u: Unit): Option<Byte> {
    if u == 0x72 then Some(0x0d)
    else if u == 0x6e then Some(0x0a)
    else if u == 0x74 then Some(0x09)
    else if u == BACKSLASH then Some(0x5c)
    else if u == QUOTE then Some(0x22)
    else None
  }

  function HexDigit(u: Unit): Option<nat> {
    if 0x30 <= u <= 0x39 then Some(u - 0x30)
    else if 0x41 <= u <= 0x46 then Some(u - 0x41 + 10)
    else if 0x61 <= u <= 0x66 then Some(u - 0x61 + 10)
    else None
  }

  predicate IsHexEscape(text: Text) {
    |text| >= 4 && text[1] == LOWER_X && HexDigit(text[2]).Some? && HexDigit(text[3]).Some?
  }

  function HexByte(text: Text): Byte
    requires IsHexEscape(text)
  {
    HexDigit(text[2]).value * 16 + HexDigit(text[3]).value
  }

  /** Parses what is left of a text; `literal` is what has been read and not yet encoded. */
  function ParseRest(text: Text, literal: Text): Parsed
    decreases |text|
  {
    if text == [] then Ok(Encoded(literal))
    else if text[0] != BACKSLASH then ParseRest(text[1..], literal + [text[0]])
    else if |text| >= 2 && SimpleEscape(text[1]).Some?
    then ParseRest(text[2..], literal + [SimpleEscape(text[1]).value])
    else if !IsHexEscape(text) then Malformed(if |text| < 4 then text else text[..4])
    else
      match ParseRest(text[4..], [])
      case Ok(bytes) => Ok(Encoded(literal) + [HexByte(text)] + bytes)
      case Malformed(escape) => Malformed(escape)
  }

  function Prepend(front: seq<Byte>, p: Parsed): Parsed { if p.Ok? then Ok(front + p.bytes) else p }

  lemma TakesCharacter(text: Text, at: nat, literal: Text)
    requires at < |text| && text[at] != BACKSLASH
    ensures ParseRest(text[at..], literal) == ParseRest(text[at + 1..], literal + [text[at]])
  {
    assert text[at..][1..] == text[at + 1..];
  }

  lemma TakesSimpleEscape(text: Text, at: nat, literal: Text)
    requires at + 1 < |text| && text[at] == BACKSLASH && SimpleEscape(text[at + 1]).Some?
    ensures ParseRest(text[at..], literal) == ParseRest(text[at + 2..], literal + [SimpleEscape(text[at + 1]).value])
  {
    assert text[at..][2..] == text[at + 2..];
  }

  lemma TakesHexEscape(text: Text, at: nat, bytes: seq<Byte>, literal: Text)
    requires at < |text| && text[at] == BACKSLASH && IsHexEscape(text[at..])
    ensures Prepend(bytes, ParseRest(text[at..], literal))
         == Prepend(bytes + Encoded(literal) + [HexByte(text[at..])], ParseRest(text[at + 4..], []))
  {
    assert text[at..][4..] == text[at + 4..];
    var rest := ParseRest(text[at + 4..], []);
    if rest.Ok? {
      var hex := [HexByte(text[at..])];
      assert bytes + (Encoded(literal) + hex + rest.bytes) == bytes + Encoded(literal) + hex + rest.bytes;
    }
  }

  lemma RefusesEscape(text: Text, at: nat, literal: Text)
    requires at < |text| && text[at] == BACKSLASH && !IsHexEscape(text[at..])
    requires !(at + 1 < |text| && SimpleEscape(text[at + 1]).Some?)
    ensures ParseRest(text[at..], literal) == Malformed(text[at..if at + 4 <= |text| then at + 4 else |text|])
  {
    if at + 4 <= |text| { assert text[at..][..4] == text[at..at + 4]; }
  }

  method ParseEscapedText(text: Text) returns (parsed: Parsed)
    ensures parsed == ParseRest(text, [])
  {
    var bytes: seq<Byte> := [];
    var literal: Text := [];
    var position := 0;
    while position < |text|
      invariant position <= |text|
      invariant Prepend(bytes, ParseRest(text[position..], literal)) == ParseRest(text, [])
    {
      var character := text[position];
      if character != BACKSLASH {
        TakesCharacter(text, position, literal);
        literal := literal + [character];
        position := position + 1;
      } else if position + 1 < |text| && SimpleEscape(text[position + 1]).Some? {
        TakesSimpleEscape(text, position, literal);
        literal := literal + [SimpleEscape(text[position + 1]).value];
        position := position + 2;
      } else {
        if !IsHexEscape(text[position..]) {
          RefusesEscape(text, position, literal);
          return Malformed(text[position..if position + 4 <= |text| then position + 4 else |text|]);
        }
        TakesHexEscape(text, position, bytes, literal);
        bytes := bytes + Encoded(literal) + [HexByte(text[position..])];
        literal := [];
        position := position + 4;
      }
    }
    assert text[position..] == [];
    parsed := Ok(bytes + Encoded(literal));
  }

  // --- Printing -----------------------------------------------------------------------------------------

  function NamedByte(b: Byte): Option<Unit> {
    if b == 0x0d then Some(0x72)
    else if b == 0x0a then Some(0x6e)
    else if b == 0x09 then Some(0x74)
    else if b == 0x5c then Some(BACKSLASH)
    else if b == 0x22 then Some(QUOTE)
    else None
  }

  function LowerHex(digit: nat): Unit
    requires digit < 16
  {
    if digit < 10 then 0x30 + digit else 0x61 + digit - 10
  }

  function Rendered(b: Byte): Text {
    if NamedByte(b).Some? then [BACKSLASH, NamedByte(b).value]
    else if 0x20 <= b < 0x7f then [b]
    else [BACKSLASH, LOWER_X, LowerHex(b / 16), LowerHex(b % 16)]
  }

  function RenderedAll(bytes: seq<Byte>): Text {
    if bytes == [] then [] else RenderedAll(bytes[..|bytes| - 1]) + Rendered(bytes[|bytes| - 1])
  }

  /** The text between the quotes, and the full length if the payload was cut. */
  method DescribeBytes(bytes: seq<Byte>, maxBytes: nat) returns (rendered: Text, cutFrom: Option<nat>)
    ensures ParseRest(rendered, []) == Ok(if |bytes| <= maxBytes then bytes else bytes[..maxBytes])
    ensures cutFrom == if |bytes| > maxBytes then Some(|bytes|) else None
    ensures IsAscii(rendered) && forall i :: 0 <= i < |rendered| ==> 0x20 <= rendered[i] < 0x7f
  {
    var shown := if |bytes| <= maxBytes then bytes else bytes[..maxBytes];
    rendered := [];
    var i := 0;
    while i < |shown|
      invariant i <= |shown| && rendered == RenderedAll(shown[..i])
      invariant forall k :: 0 <= k < |rendered| ==> 0x20 <= rendered[k] < 0x7f
    {
      assert shown[..i + 1][..i] == shown[..i];
      rendered := rendered + Rendered(shown[i]);
      i := i + 1;
    }
    assert shown[..i] == shown;
    cutFrom := if |bytes| > maxBytes then Some(|bytes|) else None;
    PrintedIsParsed(shown);
  }

  // --- What is printed can be typed again -----------------------------------------------------------------

  function AsBytes(literal: Text): seq<Byte>
    requires IsAscii(literal)
  {
    seq(|literal|, i requires 0 <= i < |literal| => literal[i] as Byte)
  }

  lemma {:induction false} Utf8OfAscii(literal: seq<Scalar>)
    requires forall i :: 0 <= i < |literal| ==> literal[i] < 0x80
    ensures Utf8(literal) == literal
  {
    if literal != [] { Utf8OfAscii(literal[1..]); }
  }

  lemma AsciiIsEncodedAsItIs(literal: Text)
    requires IsAscii(literal)
    ensures Encoded(literal) == AsBytes(literal)
  {
    AsciiInFront(literal, []);
    assert literal + [] == literal && Scalars([]) == [];
    Utf8OfAscii(Scalars(literal));
  }

  /** Parsing the characters of one byte reads that byte, whatever follows them. */
  lemma ByteIsParsed(b: Byte, rest: Text, literal: Text)
    requires IsAscii(literal)
    ensures |Rendered(b)| == 4 ==>
              ParseRest(Rendered(b) + rest, literal) == Prepend(AsBytes(literal) + [b], ParseRest(rest, []))
    ensures |Rendered(b)| != 4 ==> ParseRest(Rendered(b) + rest, literal) == ParseRest(rest, literal + [b])
    ensures |Rendered(b)| != 4 ==> b < 0x80
  {
    var r := Rendered(b);
    assert (r + rest)[|r|..] == rest;
    AsciiIsEncodedAsItIs(literal);
    if |r| == 4 {
      assert (r + rest)[0] == BACKSLASH && (r + rest)[1] == LOWER_X;
      assert (r + rest)[2] == LowerHex(b / 16) && (r + rest)[3] == LowerHex(b % 16);
      assert HexByte(r + rest) == b;
    } else if |r| == 2 {
      assert (r + rest)[0] == BACKSLASH && (r + rest)[1] == NamedByte(b).value;
    } else {
      assert (r + rest)[0] == b;
    }
  }

  /** The same text, built from its front. */
  function RenderedFrom(bytes: seq<Byte>): Text {
    if bytes == [] then [] else Rendered(bytes[0]) + RenderedFrom(bytes[1..])
  }

  lemma {:induction false} RenderedOneMore(bytes: seq<Byte>, b: Byte)
    ensures RenderedFrom(bytes + [b]) == RenderedFrom(bytes) + Rendered(b)
  {
    if bytes == [] {
      assert bytes + [b] == [b];
    } else {
      RenderedOneMore(bytes[1..], b);
      assert (bytes + [b])[1..] == bytes[1..] + [b];
    }
  }

  lemma {:induction false} RenderedEitherWay(bytes: seq<Byte>)
    ensures RenderedAll(bytes) == RenderedFrom(bytes)
  {
    if bytes != [] {
      RenderedEitherWay(bytes[..|bytes| - 1]);
      RenderedOneMore(bytes[..|bytes| - 1], bytes[|bytes| - 1]);
      assert bytes[..|bytes| - 1] + [bytes[|bytes| - 1]] == bytes;
    }
  }

  lemma Regroup(front: seq<Byte>, bytes: seq<Byte>)
    requires bytes != []
    ensures front + [bytes[0]] + bytes[1..] == front + bytes
  {
  }

  lemma AsBytesOneMore(literal: Text, b: Byte)
    requires IsAscii(literal) && b < 0x80
    ensures IsAscii(literal + [b]) && AsBytes(literal + [b]) == AsBytes(literal) + [b]
  {
  }

  lemma {:induction false} RestIsParsed(bytes: seq<Byte>, literal: Text)
    requires IsAscii(literal)
    ensures ParseRest(RenderedFrom(bytes), literal) == Ok(AsBytes(literal) + bytes)
    decreases |bytes|
  {
    if bytes == [] {
      AsciiIsEncodedAsItIs(literal);
      assert AsBytes(literal) + bytes == AsBytes(literal);
    } else {
      var b, rest := bytes[0], bytes[1..];
      ByteIsParsed(b, RenderedFrom(rest), literal);
      Regroup(AsBytes(literal), bytes);
      if |Rendered(b)| == 4 {
        RestIsParsed(rest, []);
        assert AsBytes([]) + rest == rest;
      } else {
        AsBytesOneMore(literal, b);
        RestIsParsed(rest, literal + [b]);
      }
    }
  }

  /** Typing what was printed sends the same bytes again. */
  lemma PrintedIsParsed(bytes: seq<Byte>)
    ensures ParseRest(RenderedAll(bytes), []) == Ok(bytes)
  {
    RenderedEitherWay(bytes);
    RestIsParsed(bytes, []);
    assert AsBytes([]) + bytes == bytes;
  }
}
