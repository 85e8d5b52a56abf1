/**
 * The names of configurations and of the Web Locks built from them: `validateName` of
 * `src/core/validation.ts` and the lock names of `src/protocol/version.ts`.
 */
module Names {
  import opened Basics
  import opened Unicode

  const MAX_CONFIG_NAME_LENGTH: nat := 128
  const SLASH: Unit := 0x2f

  datatype Refusal = IsEmpty | TooLong | HasControlCharacter | HasUnpairedSurrogate

  predicate IsControl(u: Unit) { u < 0x20 || 0x7f <= u <= 0x9f }

  /** What a name has to be. */
  ghost predicate IsName(text: Text) {
    && 0 < |text| <= MAX_CONFIG_NAME_LENGTH
    && (forall i :: 0 <= i < |text| ==> !IsControl(text[i]))
    && IsWellFormed(text)
  }

  lemma SkipsCharacter(text: Text, index: nat)
    requires index < |text|
    ensures var pair := IsHigh(text[index]) && index + 1 < |text| && IsLow(text[index + 1]);
            HasUnpaired(text[index..]) <==>
            ((IsHigh(text[index]) && !pair) || IsLow(text[index])
             || HasUnpaired(text[index + (if pair then 2 else 1)..]))
  {
    var rest := text[index..];
    assert rest[FirstLength(rest)..] == text[index + FirstLength(rest)..];
  }

  /** The code unit after a high surrogate is read past the end of the text as no unit at all. */
  method FindUnpairedSurrogate(text: Text) returns (found: bool)
    ensures found <==> !IsWellFormed(text)
  {
    var index := 0;
    while index < |text|
      invariant index <= |text|
      invariant HasUnpaired(text) == HasUnpaired(text[index..])
    {
      var codeUnit := text[index];
      SkipsCharacter(text, index);
      if IsHigh(codeUnit) {
        if !(index + 1 < |text| && IsLow(text[index + 1])) {
          WellFormedIsPaired(text);
          return true;
        }
        index := index + 1;
      } else if IsLow(codeUnit) {
        WellFormedIsPaired(text);
        return true;
      }
      index := index + 1;
    }
    assert text[index..] == [];
    WellFormedIsPaired(text);
    found := false;
  }

  /** A name is accepted exactly if it is one, and refused for the first thing it is not. */
  method ValidateName(text: Text) returns (refusal: Option<Refusal>)
    ensures refusal.None? <==> IsName(text)
    ensures refusal == Some(IsEmpty) <==> text == []
    ensures refusal == Some(TooLong) <==> |text| > MAX_CONFIG_NAME_LENGTH
    ensures refusal == Some(HasUnpairedSurrogate) ==>
              && !IsWellFormed(text) && |text| <= MAX_CONFIG_NAME_LENGTH
              && forall i :: 0 <= i < |text| ==> !IsControl(text[i])
  {
    if |text| == 0 { return Some(IsEmpty); }
    if |text| > MAX_CONFIG_NAME_LENGTH { return Some(TooLong); }
    var index := 0;
    while index < |text|
      invariant index <= |text| && forall i :: 0 <= i < index ==> !IsControl(text[i])
    {
      if text[index] < 0x20 || (text[index] >= 0x7f && text[index] <= 0x9f) { return Some(HasControlCharacter); }
      index := index + 1;
    }
    var unpaired := FindUnpairedSurrogate(text);
    refusal := if unpaired then Some(HasUnpairedSurrogate) else None;
  }

  // --- Lock names -------------------------------------------------------------------------------------

  /** The ASCII prefix of the names of ownership locks, `serial-broker/owner/v1/`. */
  const OWNER_PREFIX: Text := [0x73, 0x65, 0x72, 0x69, 0x61, 0x6c, 0x2d, 0x62, 0x72, 0x6f, 0x6b, 0x65, 0x72, SLASH,
                               0x6f, 0x77, 0x6e, 0x65, 0x72, SLASH, 0x76, 0x31, SLASH]

  /** `serial-broker/term/v1/`. */
  const TERM_PREFIX: Text := [0x73, 0x65, 0x72, 0x69, 0x61, 0x6c, 0x2d, 0x62, 0x72, 0x6f, 0x6b, 0x65, 0x72, SLASH,
                              0x74, 0x65, 0x72, 0x6d, SLASH, 0x76, 0x31, SLASH]

  function OwnerLockName(name: Text): Text { OWNER_PREFIX + name }

  /** `fields` are the limit, the term and the sender, in this order; the name comes last. */
  function TermLockName(maxTabs: Text, term: Text, client: Text, name: Text): Text {
    TERM_PREFIX + maxTabs + [SLASH] + term + [SLASH] + client + [SLASH] + name
  }

  /** What stands before the name in a lock name: ASCII, and without the separator. */
  ghost predicate IsField(text: Text) { IsAscii(text) && SLASH !in text }

  lemma PrefixStaysWellFormed(prefix: Text, name: Text)
    requires IsAscii(prefix) && IsWellFormed(name)
    ensures IsWellFormed(prefix + name)
  {
    AsciiInFront(prefix, name);
    WellFormedIsPaired(name);
    WellFormedIsPaired(prefix + name);
  }

  /** Configurations with different names never share an ownership lock, as the browser is told its name. */
  lemma OwnerLocksAreApart(a: Text, b: Text)
    requires IsName(a) && IsName(b)
    ensures Encoded(OwnerLockName(a)) == Encoded(OwnerLockName(b)) <==> a == b
  {
    if Encoded(OwnerLockName(a)) == Encoded(OwnerLockName(b)) {
      PrefixStaysWellFormed(OWNER_PREFIX, a);
      PrefixStaysWellFormed(OWNER_PREFIX, b);
      EncodingIsInjective(OwnerLockName(a), OwnerLockName(b));
      assert OwnerLockName(a)[|OWNER_PREFIX|..] == a && OwnerLockName(b)[|OWNER_PREFIX|..] == b;
    }
  }

  /** Without the check they would: every name with an unpaired surrogate shares its lock with another name. */
  lemma UncheckedOwnerLocksCollide(a: Text) returns (b: Text)
    requires !IsWellFormed(a)
    ensures a != b && IsWellFormed(b) && Encoded(OwnerLockName(a)) == Encoded(OwnerLockName(b))
  {
    b := UnpairedCollides(a);
    AsciiInFront(OWNER_PREFIX, a);
    AsciiInFront(OWNER_PREFIX, b);
    Utf8IsInjective(Scalars(a), Scalars(b));
  }

  lemma SplitsAtSlash(a: Text, rest: Text, b: Text, rest': Text)
    requires SLASH !in a && SLASH !in b && a + [SLASH] + rest == b + [SLASH] + rest'
    ensures a == b && rest == rest'
  {
    var whole := a + [SLASH] + rest;
    assert whole[|a|] == SLASH && (b + [SLASH] + rest')[|b|] == SLASH;
    assert a == whole[..|a|] && b == whole[..|b|];
    assert rest == whole[|a| + 1..] && rest' == whole[|b| + 1..];
  }

  /** A term's lock is named for exactly one limit, term, sender and configuration. */
  lemma TermLocksAreApart(m: Text, t: Text, c: Text, a: Text, m': Text, t': Text, c': Text, a': Text)
    requires IsField(m) && IsField(t) && IsField(c) && IsName(a)
    requires IsField(m') && IsField(t') && IsField(c') && IsName(a')
    requires Encoded(TermLockName(m, t, c, a)) == Encoded(TermLockName(m', t', c', a'))
    ensures m == m' && t == t' && c == c' && a == a'
  {
    TermLockIsWellFormed(m, t, c, a);
    TermLockIsWellFormed(m', t', c', a');
    EncodingIsInjective(TermLockName(m, t, c, a), TermLockName(m', t', c', a'));
    var rest, rest' := t + [SLASH] + (c + [SLASH] + a), t' + [SLASH] + (c' + [SLASH] + a');
    assert TermLockName(m, t, c, a)[|TERM_PREFIX|..] == m + [SLASH] + rest;
    assert TermLockName(m', t', c', a')[|TERM_PREFIX|..] == m' + [SLASH] + rest';
    SplitsAtSlash(m, rest, m', rest');
    SplitsAtSlash(t, c + [SLASH] + a, t', c' + [SLASH] + a');
    SplitsAtSlash(c, a, c', a');
  }

  lemma TermLockIsWellFormed(m: Text, t: Text, c: Text, a: Text)
    requires IsField(m) && IsField(t) && IsField(c) && IsName(a)
    ensures IsWellFormed(TermLockName(m, t, c, a))
  {
    var prefix := TERM_PREFIX + m + [SLASH] + t + [SLASH] + c + [SLASH];
    assert IsAscii(prefix);
    PrefixStaysWellFormed(prefix, a);
    assert TermLockName(m, t, c, a) == prefix + a;
  }
}
