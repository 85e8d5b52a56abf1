/**
 * Text as the browser handles it: sequences of UTF-16 code units (section 3.9 of the Unicode Standard,
 * definition D91), and the UTF-8 (section 3 of RFC 3629) they are encoded to on their way out. The encoder
 * replaces an unpaired surrogate by U+FFFD.
 */
module Unicode {
  import opened Basics
  import opened Division

  type Unit = u: int | 0 <= u < 0x1_0000 witness 0
  type Scalar = s: int | 0 <= s < 0xd800 || 0xe000 <= s < 0x11_0000 witness 0

  type Text = seq<Unit>

  const REPLACEMENT: Scalar := 0xfffd

  predicate IsHigh(u: int) { 0xd800 <= u <= 0xdbff }

  predicate IsLow(u: int) { 0xdc00 <= u <= 0xdfff }

  // --- UTF-16 -----------------------------------------------------------------------------------------

  function Units(s: Scalar): Text {
    if s < 0x1_0000 then [s] else [0xd800 + (s - 0x1_0000) / 0x400, 0xdc00 + (s - 0x1_0000) % 0x400]
  }

  function Utf16(scalars: seq<Scalar>): Text {
    if scalars == [] then [] else Units(scalars[0]) + Utf16(scalars[1..])
  }

  /** A text is well-formed if it is the UTF-16 of some scalar values. */
  ghost predicate IsWellFormed(text: Text) { exists scalars: seq<Scalar> :: Utf16(scalars) == text }

  /** How many code units the first character of a text takes; an unpaired surrogate takes one. */
  function FirstLength(text: Text): nat
    requires text != []
  {
    if IsHigh(text[0]) && |text| > 1 && IsLow(text[1]) then 2 else 1
  }

  predicate StartsUnpaired(text: Text)
    requires text != []
  {
    (IsHigh(text[0]) && FirstLength(text) == 1) || IsLow(text[0])
  }

  function First(text: Text): Scalar
    requires text != []
  {
    if StartsUnpaired(text) then REPLACEMENT
    else if FirstLength(text) == 2 then 0x1_0000 + (text[0] as int - 0xd800) * 0x400 + (text[1] as int - 0xdc00)
    else text[0]
  }

  /** The scalar values of a text, with U+FFFD for every unpaired surrogate. */
  function Scalars(text: Text): seq<Scalar> {
    if text == [] then [] else [First(text)] + Scalars(text[FirstLength(text)..])
  }

  predicate HasUnpaired(text: Text) {
    text != [] && (StartsUnpaired(text) || HasUnpaired(text[FirstLength(text)..]))
  }

  lemma UnitsAreRead(s: Scalar, rest: Text)
    ensures var text := Units(s) + rest;
            text != [] && First(text) == s && FirstLength(text) == |Units(s)| && !StartsUnpaired(text)
  {
  }

  lemma {:induction false} Utf16IsRead(scalars: seq<Scalar>)
    ensures Scalars(Utf16(scalars)) == scalars && !HasUnpaired(Utf16(scalars))
  {
    if scalars != [] {
      UnitsAreRead(scalars[0], Utf16(scalars[1..]));
      Utf16IsRead(scalars[1..]);
      assert Utf16(scalars)[|Units(scalars[0])|..] == Utf16(scalars[1..]);
    }
  }

  lemma FirstIsWritten(text: Text)
    requires text != [] && !StartsUnpaired(text)
    ensures Units(First(text)) == text[..FirstLength(text)]
  {
  }

  lemma {:induction false} PairedIsUtf16(text: Text)
    requires !HasUnpaired(text)
    ensures Utf16(Scalars(text)) == text
  {
    if text != [] {
      FirstIsWritten(text);
      PairedIsUtf16(text[FirstLength(text)..]);
      assert text[..FirstLength(text)] + text[FirstLength(text)..] == text;
    }
  }

  /** A text is well-formed exactly if every surrogate in it is paired. */
  lemma WellFormedIsPaired(text: Text)
    ensures IsWellFormed(text) <==> !HasUnpaired(text)
    ensures IsWellFormed(text) ==> Utf16(Scalars(text)) == text
  {
    if IsWellFormed(text) {
      var scalars :| Utf16(scalars) == text;
      Utf16IsRead(scalars);
    }
    if !HasUnpaired(text) {
      PairedIsUtf16(text);
    }
  }

  // --- UTF-8 ------------------------------------------------------------------------------------------

  function Bytes(s: Scalar): seq<Byte> {
    if s < 0x80 then [s]
    else if s < 0x800 then [0xc0 + s / 0x40, 0x80 + s % 0x40]
    else if s < 0x1_0000 then [0xe0 + s / 0x1000, 0x80 + s / 0x40 % 0x40, 0x80 + s % 0x40]
    else [0xf0 + s / 0x4_0000, 0x80 + s / 0x1000 % 0x40, 0x80 + s / 0x40 % 0x40, 0x80 + s % 0x40]
  }

  function Utf8(scalars: seq<Scalar>): seq<Byte> {
    if scalars == [] then [] else Bytes(scalars[0]) + Utf8(scalars[1..])
  }

  /** The number that the bytes at the front of a UTF-8 stream stand for. */
  function Value(b: seq<Byte>): int
    requires b != []
  {
    if b[0] < 0xc0 || |b| < 2 then b[0]
    else if b[0] < 0xe0 || |b| < 3 then (b[0] as int - 0xc0) * 0x40 + (b[1] as int - 0x80)
    else if b[0] < 0xf0 || |b| < 4
    then (b[0] as int - 0xe0) * 0x1000 + (b[1] as int - 0x80) * 0x40 + (b[2] as int - 0x80)
    else
      (b[0] as int - 0xf0) * 0x4_0000 + (b[1] as int - 0x80) * 0x1000
      + (b[2] as int - 0x80) * 0x40 + (b[3] as int - 0x80)
  }

  function Length(lead: Byte): nat {
    if lead < 0xc0 then 1 else if lead < 0xe0 then 2 else if lead < 0xf0 then 3 else 4
  }

  /** A number is the digits it has in base 64. */
  lemma Digits(s: nat)
    ensures s == s / 0x40 * 0x40 + s % 0x40
    ensures s == s / 0x1000 * 0x1000 + s / 0x40 % 0x40 * 0x40 + s % 0x40
    ensures s == s / 0x4_0000 * 0x4_0000 + s / 0x1000 % 0x40 * 0x1000 + s / 0x40 % 0x40 * 0x40 + s % 0x40
  {
    NextDigit(s, 0x40);
    NextDigit(s, 0x1000);
  }

  lemma BytesAreRead(s: Scalar, rest: seq<Byte>)
    ensures var b := Bytes(s) + rest; b != [] && Value(b) == s && Length(b[0]) == |Bytes(s)|
  {
    Digits(s);
    var b := Bytes(s) + rest;
    assert forall i :: 0 <= i < |Bytes(s)| ==> b[i] == Bytes(s)[i];
  }

  /** Different scalar values are encoded differently, whatever follows them. */
  lemma {:induction false} Utf8IsInjective(a: seq<Scalar>, b: seq<Scalar>)
    requires Utf8(a) == Utf8(b)
    ensures a == b
    decreases |a|
  {
    if a == [] || b == [] {
      if a != [] { BytesAreRead(a[0], Utf8(a[1..])); }
      if b != [] { BytesAreRead(b[0], Utf8(b[1..])); }
    } else {
      BytesAreRead(a[0], Utf8(a[1..]));
      BytesAreRead(b[0], Utf8(b[1..]));
      assert Utf8(a)[|Bytes(a[0])|..] == Utf8(a[1..]) && Utf8(b)[|Bytes(b[0])|..] == Utf8(b[1..]);
      Utf8IsInjective(a[1..], b[1..]);
      assert a == [a[0]] + a[1..] && b == [b[0]] + b[1..];
    }
  }

  /** What the encoder makes of a text. */
  function Encoded(text: Text): seq<Byte> { Utf8(Scalars(text)) }

  /** Encoding keeps well-formed texts apart. */
  lemma EncodingIsInjective(a: Text, b: Text)
    requires IsWellFormed(a) && IsWellFormed(b) && Encoded(a) == Encoded(b)
    ensures a == b
  {
    Utf8IsInjective(Scalars(a), Scalars(b));
    WellFormedIsPaired(a);
    WellFormedIsPaired(b);
  }

  /** And no text with an unpaired surrogate is kept apart: some well-formed text is encoded the same. */
  lemma UnpairedCollides(text: Text) returns (other: Text)
    requires !IsWellFormed(text)
    ensures other != text && IsWellFormed(other) && Encoded(other) == Encoded(text)
  {
    other := Utf16(Scalars(text));
    Utf16IsRead(Scalars(text));
  }

  // --- ASCII --------------------------------------------------------------------------------------------

  predicate IsAscii(text: Text) { forall i :: 0 <= i < |text| ==> text[i] < 0x80 }

  lemma {:induction false} AsciiInFront(a: Text, b: Text)
    requires IsAscii(a)
    ensures Scalars(a + b) == (seq(|a|, i requires 0 <= i < |a| => a[i] as Scalar)) + Scalars(b)
    ensures HasUnpaired(a + b) == HasUnpaired(b)
  {
    if a == [] {
      assert a + b == b;
    } else {
      assert (a + b)[1..] == a[1..] + b;
      AsciiInFront(a[1..], b);
    }
  }
}
