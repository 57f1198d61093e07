/** ASCII text, bytes and decimal numerals as the radio module reads them on the wire. */
module Ascii {

  /** An unsigned byte, Rust's `u8`. */
  type U8 = x: int | 0 <= x < 0x100

  predicate IsAscii(s: string) {
    forall i | 0 <= i < |s| :: s[i] as int < 0x80
  }

  /** The bytes of an ASCII string, one byte per character. */
  function Bytes(s: string): (b: seq<U8>)
    requires IsAscii(s)
    ensures |b| == |s|
    ensures forall i | 0 <= i < |s| :: b[i] == s[i] as int
  {
    seq(|s|, i requires 0 <= i < |s| => s[i] as int)
  }

  /** Copies `bytes` into `buffer` from `offset` on, leaving every other byte as it was. */
  method CopyInto(buffer: array<U8>, offset: nat, bytes: seq<U8>)
    requires offset + |bytes| <= buffer.Length
    modifies buffer
    ensures forall k | 0 <= k < buffer.Length ::
      buffer[k] == if offset <= k < offset + |bytes| then bytes[k - offset] else old(buffer[k])
  {
    for i := 0 to |bytes|
      invariant forall k | 0 <= k < buffer.Length ::
        buffer[k] == if offset <= k < offset + i then bytes[k - offset] else old(buffer[k])
    {
      buffer[offset + i] := bytes[i];
    }
  }

  /** Every AT line ends with carriage return, line feed. */
  const CRLF: string := "\r\n"

  /** A command or query line: it starts with `AT+` and ends with CR LF. */
  predicate IsAtLine(s: string) {
    |s| >= 5 && s[..3] == "AT+" && s[|s| - 2..] == CRLF
  }

  predicate IsDigit(c: char) {
    '0' <= c <= '9'
  }

  predicate AllDigits(s: string) {
    forall i | 0 <= i < |s| :: IsDigit(s[i])
  }

  function DigitChar(d: nat): (c: char)
    requires d < 10
    ensures IsDigit(c) && c as int - '0' as int == d
  {
    ('0' as int + d) as char
  }

  function DigitValue(c: char): (d: nat)
    requires IsDigit(c)
    ensures d < 10 && DigitChar(d) == c
  {
    c as int - '0' as int
  }

  /** The decimal numeral of `n`, most significant digit first, without leading zeros. */
  function Decimal(n: nat): (s: string)
    ensures 1 <= |s| && AllDigits(s) && IsAscii(s)
    ensures s[0] == '0' ==> n == 0
    decreases n
  {
    if n < 10 then [DigitChar(n)] else Decimal(n / 10) + [DigitChar(n % 10)]
  }

  /** The number a string of decimal digits denotes, most significant digit first. */
  function ValueOf(s: string): nat
    requires AllDigits(s)
    decreases |s|
  {
    if s == [] then 0 else 10 * ValueOf(s[..|s| - 1]) + DigitValue(s[|s| - 1])
  }

  /** Reading a rendered numeral gives back the number. */
  lemma {:induction false} ValueOfDecimal(n: nat)
    ensures ValueOf(Decimal(n)) == n
  {
    if n >= 10 {
      var s := Decimal(n);
      assert s[..|s| - 1] == Decimal(n / 10);
      ValueOfDecimal(n / 10);
    }
  }

  /** Ten to the power `k`. */
  function Pow10(k: nat): (p: nat)
    ensures p >= 1
  {
    if k == 0 then 1 else 10 * Pow10(k - 1)
  }

  /** A number below `10^k` has a numeral of at most `k` digits. */
  lemma {:induction false} DecimalLength(n: nat, k: nat)
    requires 1 <= k && n < Pow10(k)
    ensures |Decimal(n)| <= k
  {
    if n >= 10 {
      assert k >= 2;
      DecimalLength(n / 10, k - 1);
    }
  }

  /** A number of at least `10^k` has a numeral of more than `k` digits. */
  lemma {:induction false} DecimalLengthAtLeast(n: nat, k: nat)
    requires Pow10(k) <= n
    ensures k < |Decimal(n)|
  {
    if k > 0 {
      DecimalLengthAtLeast(n / 10, k - 1);
    }
  }

  /** `k` zero digits. */
  function Zeros(k: nat): (z: string)
    ensures |z| == k && AllDigits(z)
  {
    seq(k, _ => '0')
  }

  /** `s` padded on the left with `'0'` to at least `width` characters (Rust's `{:0width$}`). */
  function ZeroPad(s: string, width: nat): (p: string)
    ensures |p| == if |s| < width then width else |s|
  {
    if |s| >= width then s else Zeros(width - |s|) + s
  }

  /** Leading zeros do not change the value of a numeral. */
  lemma {:induction false} ValueOfLeadingZeros(k: nat, s: string)
    requires AllDigits(s)
    ensures AllDigits(Zeros(k) + s) && ValueOf(Zeros(k) + s) == ValueOf(s)
    decreases |s|
  {
    var t := Zeros(k) + s;
    if s != [] {
      assert t[..|t| - 1] == Zeros(k) + s[..|s| - 1];
      ValueOfLeadingZeros(k, s[..|s| - 1]);
    } else {
      assert t == Zeros(k);
      ValueOfZeros(k);
    }
  }

  lemma {:induction false} ValueOfZeros(k: nat)
    ensures ValueOf(Zeros(k)) == 0
  {
    if k > 0 {
      assert Zeros(k)[..k - 1] == Zeros(k - 1);
      ValueOfZeros(k - 1);
    }
  }

  /** Zero padding keeps a numeral a numeral of the same value. */
  lemma ValueOfZeroPad(s: string, width: nat)
    requires AllDigits(s)
    ensures AllDigits(ZeroPad(s, width)) && ValueOf(ZeroPad(s, width)) == ValueOf(s)
  {
    if |s| < width {
      ValueOfLeadingZeros(width - |s|, s);
    }
  }

  /** The numeral of `10 * q + d` is that of `q` followed by the digit `d`. */
  lemma DecimalStep(q: nat, d: nat, prefix: string)
    requires 0 < q && d < 10 && Decimal(q) == prefix
    ensures Decimal(10 * q + d) == prefix + [DigitChar(d)]
  {
  }

  lemma PaddedOneDigit(u: nat)
    requires u < 10
    ensures ZeroPad(Decimal(u), 3) == [DigitChar(0), DigitChar(0), DigitChar(u)]
  {
  }

  lemma PaddedTwoDigits(t: nat, u: nat)
    requires 0 < t < 10 && u < 10
    ensures ZeroPad(Decimal(10 * t + u), 3) == [DigitChar(0), DigitChar(t), DigitChar(u)]
  {
    DecimalStep(t, u, [DigitChar(t)]);
    assert Zeros(1) == ['0'];
  }

  lemma PaddedThreeDigits(n: nat)
    requires 100 <= n < 1000
    ensures ZeroPad(Decimal(n), 3) == [DigitChar(n / 100), DigitChar(n / 10 % 10), DigitChar(n % 10)]
  {
    var q := n / 10;
    assert 10 <= q < 100 && q / 10 == n / 100 && q % 10 == n / 10 % 10;
    assert Decimal(q) == [DigitChar(q / 10), DigitChar(q % 10)];
    assert Decimal(n) == Decimal(q) + [DigitChar(n % 10)];
    assert |Decimal(n)| == 3;
  }

  /** Below 1000 the three-digit zero-padded numeral is hundreds, tens and units. */
  lemma ThreeDigits(n: nat)
    requires n < 1000
    ensures ZeroPad(Decimal(n), 3) == [DigitChar(n / 100), DigitChar(n / 10 % 10), DigitChar(n % 10)]
  {
    if n < 10 {
      PaddedOneDigit(n);
    } else if n < 100 {
      assert n / 100 == 0 && n / 10 % 10 == n / 10 && 10 * (n / 10) + n % 10 == n;
      PaddedTwoDigits(n / 10, n % 10);
    } else {
      PaddedThreeDigits(n);
    }
  }
}
