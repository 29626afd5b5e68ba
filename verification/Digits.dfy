/** Decimal numerals: printing with and without padding, and reading back. */
module Digits {
  import opened Options

  predicate IsDigit(c: char) {
    '0' <= c <= '9'
  }

  predicate AllDigits(s: string) {
    forall i | 0 <= i < |s| :: IsDigit(s[i])
  }

  function Digit(d: nat): (c: char)
    requires d < 10
    ensures IsDigit(c) && c as int == '0' as int + d
  {
    ['0', '1', '2', '3', '4', '5', '6', '7', '8', '9'][d]
  }

  function Value(s: string): nat
    requires AllDigits(s)
  {
    if s == [] then 0 else 10 * Value(s[..|s| - 1]) + (s[|s| - 1] as int - '0' as int)
  }

  function Power10(e: nat): (r: nat)
    ensures r >= 1
  {
    if e == 0 then 1 else 10 * Power10(e - 1)
  }

  /** The numeral of `n`, without padding. */
  function Decimal(n: nat): (r: string)
    ensures |r| >= 1 && AllDigits(r)
  {
    if n < 10 then [Digit(n)] else Decimal(n / 10) + [Digit(n % 10)]
  }

  /** The numeral of `n` in exactly `w` digits. */
  function Pad(n: nat, w: nat): (r: string)
    requires n < Power10(w)
    ensures |r| == w && AllDigits(r)
  {
    if w == 0 then [] else Pad(n / 10, w - 1) + [Digit(n % 10)]
  }

  lemma {:induction false} DecimalValue(n: nat)
    ensures Value(Decimal(n)) == n
  {
    var s := Decimal(n);
    if n >= 10 {
      DecimalValue(n / 10);
      assert s[..|s| - 1] == Decimal(n / 10);
    } else {
      assert s[..0] == [] && Value(s[..0]) == 0;
    }
  }

  lemma {:induction false} PadValue(n: nat, w: nat)
    requires n < Power10(w)
    ensures Value(Pad(n, w)) == n
  {
    if w == 0 {
    } else {
      PadValue(n / 10, w - 1);
      assert Pad(n, w)[..w - 1] == Pad(n / 10, w - 1);
    }
  }

  /** A numeral has as many digits as its number is large. */
  lemma {:induction false} DecimalLength(n: nat, e: nat)
    requires e >= 1
    ensures |Decimal(n)| <= e <==> n < Power10(e)
  {
    if n >= 10 {
      if e > 1 {
        DecimalLength(n / 10, e - 1);
      }
    }
  }

  lemma SmallPowers()
    ensures Power10(1) == 10 && Power10(2) == 100 && Power10(3) == 1_000 && Power10(4) == 10_000
    ensures Power10(10) == 10_000_000_000
  {
    assert Power10(3) == 10 * Power10(2);
    assert Power10(5) == 100_000;
    assert Power10(7) == 10_000_000;
    assert Power10(9) == 1_000_000_000;
  }

  /** Two and four digits, zero-padded. */
  function Pad2(n: nat): (r: string)
    requires n < 100
    ensures |r| == 2 && AllDigits(r)
  {
    SmallPowers();
    Pad(n, 2)
  }

  function Pad4(n: nat): (r: string)
    requires n < 10_000
    ensures |r| == 4 && AllDigits(r)
  {
    SmallPowers();
    Pad(n, 4)
  }

  /** How many digits `s` starts with, counting at most `max`. */
  function LeadingDigits(s: string, max: nat): (r: nat)
    ensures r <= |s| && r <= max && AllDigits(s[..r])
    ensures r < max && r < |s| ==> !IsDigit(s[r])
  {
    if max == 0 || s == [] || !IsDigit(s[0]) then 0
    else
      var r := LeadingDigits(s[1..], max - 1);
      assert s[..r + 1] == [s[0]] + s[1..][..r];
      1 + r
  }

  datatype Scanned = Scanned(value: nat, rest: string)

  /** Read a number of one to `max` digits off the front, as many as there are. */
  function Scan(s: string, max: nat): Option<Scanned> {
    var k := LeadingDigits(s, max);
    if k == 0 then None else Some(Scanned(Value(s[..k]), s[k..]))
  }

  lemma {:induction false} LeadingAll(d: string, rest: string, max: nat)
    requires AllDigits(d) && |d| <= max && (|d| == max || rest == [] || !IsDigit(rest[0]))
    ensures LeadingDigits(d + rest, max) == |d|
  {
    if d == [] {
      assert d + rest == rest;
    } else {
      assert (d + rest)[1..] == d[1..] + rest;
      LeadingAll(d[1..], rest, max - 1);
    }
  }

  /** A padded numeral is read back whole, whatever follows it. */
  lemma ScanPad(n: nat, w: nat, rest: string)
    requires w >= 1 && n < Power10(w)
    ensures Scan(Pad(n, w) + rest, w) == Some(Scanned(n, rest))
  {
    LeadingAll(Pad(n, w), rest, w);
    PadValue(n, w);
    assert (Pad(n, w) + rest)[..w] == Pad(n, w) && (Pad(n, w) + rest)[w..] == rest;
  }
}
