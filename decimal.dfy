/** Decimal spelling and parsing of integers, as Go's `strconv.Atoi` reads them
    and as `strconv.Itoa` and the time package's zero-padded fields write them. */
module Decimal {
  import opened Wrappers

  const MinInt64: int := -0x8000_0000_0000_0000
  const MaxInt64: int := 0x7fff_ffff_ffff_ffff

  predicate IsDigit(c: char) { '0' <= c <= '9' }

  predicate AllDigits(s: string) { forall i :: 0 <= i < |s| ==> IsDigit(s[i]) }

  function DigitChar(d: nat): (c: char)
    requires d < 10
    ensures IsDigit(c) && DigitValue(c) == d
  {
    (('0' as int) + d) as char
  }

  function DigitValue(c: char): nat
    requires IsDigit(c)
  {
    (c as int) - ('0' as int)
  }

  function Pow10(k: nat): (p: nat)
    ensures p >= 1
  {
    if k == 0 then 1 else 10 * Pow10(k - 1)
  }

  /** The number a string of decimal digits spells, most significant digit first. */
  function ValueOf(s: string): nat
    requires AllDigits(s)
  {
    if s == [] then 0 else ValueOf(s[..|s| - 1]) * 10 + DigitValue(s[|s| - 1])
  }

  /** The shortest decimal spelling of `n` ("0" for zero). */
  function Digits(n: nat): (s: string)
    ensures AllDigits(s) && |s| >= 1
  {
    if n < 10 then [DigitChar(n)] else Digits(n / 10) + [DigitChar(n % 10)]
  }

  function Zeros(k: nat): (s: string)
    ensures |s| == k && AllDigits(s)
  {
    seq(k, _ => '0')
  }

  /** `n` written with at least `width` digits, zero-padded on the left. */
  function Padded(n: nat, width: nat): (s: string)
    ensures AllDigits(s) && |s| >= width
  {
    var d := Digits(n);
    if |d| >= width then d else Zeros(width - |d|) + d
  }

  lemma {:induction false} ValueOfDigits(n: nat)
    ensures ValueOf(Digits(n)) == n
  {
    if n >= 10 {
      ValueOfDigits(n / 10);
      var s := Digits(n);
      assert s[..|s| - 1] == Digits(n / 10);
    }
  }

  lemma {:induction false} DigitsFit(n: nat, width: nat)
    requires width >= 1 && n < Pow10(width)
    ensures |Digits(n)| <= width
  {
    if n >= 10 {
      assert width >= 2;
      assert Pow10(width) == 10 * Pow10(width - 1);
      assert n / 10 < Pow10(width - 1);
      DigitsFit(n / 10, width - 1);
      assert |Digits(n)| == |Digits(n / 10)| + 1;
    }
  }

  lemma {:induction false} ValueOfZeros(k: nat)
    ensures ValueOf(Zeros(k)) == 0
  {
    if k > 0 {
      assert Zeros(k)[..k - 1] == Zeros(k - 1);
      ValueOfZeros(k - 1);
    }
  }

  lemma {:induction false} ValueOfLeadingZeros(k: nat, s: string)
    requires AllDigits(s)
    ensures AllDigits(Zeros(k) + s) && ValueOf(Zeros(k) + s) == ValueOf(s)
  {
    if s == [] {
      assert Zeros(k) + s == Zeros(k);
      ValueOfZeros(k);
    } else {
      var t := Zeros(k) + s;
      assert t[..|t| - 1] == Zeros(k) + s[..|s| - 1];
      ValueOfLeadingZeros(k, s[..|s| - 1]);
    }
  }

  /** A zero-padded field of fixed width reads back as the number written. */
  lemma PaddedRoundTrip(n: nat, width: nat)
    requires width >= 1 && n < Pow10(width)
    ensures |Padded(n, width)| == width && ValueOf(Padded(n, width)) == n
  {
    DigitsFit(n, width);
    ValueOfDigits(n);
    var d := Digits(n);
    if |d| < width {
      ValueOfLeadingZeros(width - |d|, d);
    }
  }

  /** Two digit strings of one length that spell the same number are equal. */
  lemma {:induction false} DigitsUnique(a: string, b: string)
    requires AllDigits(a) && AllDigits(b) && |a| == |b| && ValueOf(a) == ValueOf(b)
    ensures a == b
  {
    if a != [] {
      var n := |a| - 1;
      assert DigitValue(a[n]) < 10 && DigitValue(b[n]) < 10;
      assert ValueOf(a[..n]) == ValueOf(b[..n]) && DigitValue(a[n]) == DigitValue(b[n]);
      DigitsUnique(a[..n], b[..n]);
      assert a == a[..n] + [a[n]] && b == b[..n] + [b[n]];
    }
  }

  /** Go's `strconv.Atoi` on a 64-bit platform: an optional sign, then one or
      more ASCII digits, and a value that fits an int64; anything else fails. */
  function Atoi(s: string): (r: Option<int>)
    ensures r.Some? ==> MinInt64 <= r.value <= MaxInt64
  {
    var signed := |s| > 0 && (s[0] == '-' || s[0] == '+');
    var body := if signed then s[1..] else s;
    if |body| == 0 || !AllDigits(body) then None
    else
      var v: int := if signed && s[0] == '-' then -(ValueOf(body) as int) else ValueOf(body);
      if MinInt64 <= v <= MaxInt64 then Some(v) else None
  }

  /** Go's `strconv.Itoa`. */
  function Itoa(n: int): (s: string)
    ensures |s| >= 1
  {
    if n < 0 then "-" + Digits(-n) else Digits(n)
  }

  /** Every int64 spelled by `Itoa` is read back by `Atoi`. */
  lemma AtoiItoa(n: int)
    requires MinInt64 <= n <= MaxInt64
    ensures Atoi(Itoa(n)) == Some(n)
  {
    var s := Itoa(n);
    if n < 0 {
      ValueOfDigits(-n);
      assert s[0] == '-';
      assert s[1..] == Digits(-n);
    } else {
      ValueOfDigits(n);
      assert s == Digits(n);
      assert IsDigit(s[0]);
    }
  }

  /** Strings that `Atoi` refuses: the empty string, a lone sign, non-digits. */
  lemma AtoiRejects(s: string)
    requires s == "" || s == "-" || s == "+" || (|s| > 0 && !IsDigit(s[|s| - 1]))
    ensures Atoi(s) == None
  {
  }
}
