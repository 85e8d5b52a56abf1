/** Facts about quotients and remainders that the codecs share. */
module Division {

  lemma QuotientIsUnique(q: int, r: int, q': int, r': int, base: nat)
    requires q * base + r == q' * base + r' && 0 <= r < base && 0 <= r' < base
    ensures q == q' && r == r'
  {
    assert (q - q') * base == r' - r;
    if q > q' {
      AtLeastOnce(q - q', base);
    } else if q < q' {
      AtLeastOnce(q' - q, base);
    }
  }

  lemma AtLeastOnce(k: int, base: nat)
    requires k >= 1
    ensures k * base >= base
  {
    assert (k - 1) * base >= 0;
  }

  lemma Parts(low: nat, high: nat, base: nat)
    requires low < base
    ensures (low + high * base) / base == high && (low + high * base) % base == low
  {
    var x := low + high * base;
    QuotientIsUnique(x / base, x % base, high, low, base);
  }

  /** The next digit of a number in base 64, and in base 256. */
  lemma NextDigit(s: nat, base: nat)
    requires base == 0x40 || base == 0x1000
    ensures s / base == s / (base * 0x40) * 0x40 + s / base % 0x40
  {
    var q, r := s / base, s % base;
    if base == 0x40 {
      QuotientIsUnique(s / 0x1000, s % 0x1000, q / 0x40, q % 0x40 * 0x40 + r, 0x1000);
    } else {
      QuotientIsUnique(s / 0x4_0000, s % 0x4_0000, q / 0x40, q % 0x40 * 0x1000 + r, 0x4_0000);
    }
  }

  lemma NextByte(s: nat, base: nat)
    requires base == 0x100 || base == 0x1_0000
    ensures s / base == s / (base * 0x100) * 0x100 + s / base % 0x100
  {
    var q, r := s / base, s % base;
    if base == 0x100 {
      QuotientIsUnique(s / 0x1_0000, s % 0x1_0000, q / 0x100, q % 0x100 * 0x100 + r, 0x1_0000);
    } else {
      QuotientIsUnique(s / 0x100_0000, s % 0x100_0000, q / 0x100, q % 0x100 * 0x1_0000 + r, 0x100_0000);
    }
  }

  /** A number is the bytes it has in base 256. */
  lemma FourBytes(w: nat)
    ensures w == w % 0x100 + w / 0x100 % 0x100 * 0x100 + w / 0x1_0000 % 0x100 * 0x1_0000 + w / 0x100_0000 * 0x100_0000
  {
    NextByte(w, 0x100);
    NextByte(w, 0x1_0000);
  }
}
