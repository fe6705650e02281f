/**
 * Java's 32-bit `int` together with `Integer.parseInt` and `Integer.toString` in radix 10,
 * which the settings use to store the scan interval as text.
 */
module JavaInt {
  import opened Wrappers

  newtype Int32 = x: int | -0x8000_0000 <= x < 0x8000_0000

  predicate IsDigit(c: char)
  {
    '0' <= c <= '9'
  }

  predicate AllDigits(s: string)
  {
    forall i :: 0 <= i < |s| ==> IsDigit(s[i])
  }

  /** The value of a string of decimal digits, read most significant first. */
  function DigitsValue(s: string): nat
    requires AllDigits(s)
  {
    if s == [] then 0 else DigitsValue(s[..|s| - 1]) * 10 + (s[|s| - 1] as int - '0' as int)
  }

  /**
   * `Integer.parseInt(s)`: an optional `-` or `+` followed by at least one digit, whose value
   * fits in an `int`. `None` stands for the `NumberFormatException` thrown otherwise.
   */
  function ParseInt(s: string): (r: Option<Int32>)
    ensures r.Some? ==> |s| > 0
    ensures r.Some? && s[0] != '-' ==> r.value >= 0
  {
    if |s| == 0 then None
    else if s[0] == '-' || s[0] == '+' then FromDigits(s[0] == '-', s[1..])
    else FromDigits(false, s)
  }

  /** The value of `digits`, negated when `negative`, if they are at least one digit and the value fits in an `int`. */
  function FromDigits(negative: bool, digits: string): Option<Int32>
  {
    if |digits| == 0 || !AllDigits(digits) then None else InRange(negative, DigitsValue(digits))
  }

  /** The magnitude `m`, negated when `negative`, if the result fits in an `int`. */
  function InRange(negative: bool, m: nat): (r: Option<Int32>)
    ensures r.Some? <==> if negative then m <= 0x8000_0000 else m < 0x8000_0000
    ensures r.Some? ==> r.value as int == if negative then -(m as int) else m
  {
    var v: int := if negative then -(m as int) else m;
    if -0x8000_0000 <= v < 0x8000_0000 then Some(v as Int32) else None
  }

  function DigitChar(d: nat): char
    requires d < 10
  {
    ('0' as int + d) as char
  }

  /** The decimal digits of `n` without leading zeros. */
  function NatToDigits(n: nat): (s: string)
    ensures |s| > 0 && AllDigits(s)
  {
    if n < 10 then [DigitChar(n)] else NatToDigits(n / 10) + [DigitChar(n % 10)]
  }

  /** `Integer.toString(v)`, which `Preferences.putInt` stores. */
  function IntToString(v: Int32): string
  {
    if v < 0 then "-" + NatToDigits(-(v as int)) else NatToDigits(v as int)
  }

  lemma {:induction false} DigitsRoundTrip(n: nat)
    ensures DigitsValue(NatToDigits(n)) == n
  {
    if n >= 10 {
      DigitsRoundTrip(n / 10);
      var s := NatToDigits(n);
      assert s[..|s| - 1] == NatToDigits(n / 10);
    }
  }

  /** Reading back what `putInt` wrote gives the same `int`: the stored interval survives a save and a load. */
  lemma ParseIntToString(v: Int32)
    ensures ParseInt(IntToString(v)) == Some(v)
  {
    var s := IntToString(v);
    if v < 0 {
      var d := NatToDigits(-(v as int));
      DigitsRoundTrip(-(v as int));
      assert s[1..] == d;
      assert s[0] == '-';
    } else {
      var d := NatToDigits(v as int);
      DigitsRoundTrip(v as int);
      assert IsDigit(s[0]);
    }
  }

  /** `n` zero digits. */
  function Zeros(n: nat): (s: string)
    ensures |s| == n && AllDigits(s)
  {
    seq(n, _ => '0')
  }

  /** Leading zeros do not change the value of a digit string. */
  lemma {:induction false} LeadingZerosValue(n: nat, d: string)
    requires AllDigits(d)
    ensures AllDigits(Zeros(n) + d) && DigitsValue(Zeros(n) + d) == DigitsValue(d)
    decreases |d|
  {
    var s := Zeros(n) + d;
    if d == [] {
      assert s == Zeros(n);
      ZerosValue(n);
    } else {
      LeadingZerosValue(n, d[..|d| - 1]);
      assert s[..|s| - 1] == Zeros(n) + d[..|d| - 1];
    }
  }

  lemma {:induction false} ZerosValue(n: nat)
    ensures DigitsValue(Zeros(n)) == 0
  {
    if n > 0 {
      ZerosValue(n - 1);
      assert Zeros(n)[..n - 1] == Zeros(n - 1);
    }
  }

  /**
   * A non-empty digit string parses, bare or after `+`, to its value when that is below 2^31,
   * and after `-` to the negated value when that is at least -2^31.
   */
  lemma ParseDigits(d: string)
    requires |d| > 0 && AllDigits(d)
    ensures ParseInt(d) == InRange(false, DigitsValue(d))
    ensures ParseInt("+" + d) == InRange(false, DigitsValue(d))
    ensures ParseInt("-" + d) == InRange(true, DigitsValue(d))
  {
    assert IsDigit(d[0]);
    var plus, minus := "+" + d, "-" + d;
    assert plus[0] == '+' && plus[1..] == d;
    assert minus[0] == '-' && minus[1..] == d;
  }

  /**
   * Non-canonical text parses to the value it spells: a `+` sign and any number of leading
   * zeros may precede the canonical digits, so "+7", "007" and "-007" read as 7, 7 and -7.
   */
  lemma ParseIntNonCanonical(v: Int32, n: nat)
    ensures v >= 0 ==> ParseInt(Zeros(n) + IntToString(v)) == Some(v)
    ensures v >= 0 ==> ParseInt("+" + Zeros(n) + IntToString(v)) == Some(v)
    ensures v < 0 ==> ParseInt("-" + Zeros(n) + NatToDigits(-(v as int))) == Some(v)
  {
    if v >= 0 {
      var d := PaddedDigits(v as int, n);
      assert Zeros(n) + IntToString(v) == d;
      ParseDigits(d);
      assert "+" + Zeros(n) + IntToString(v) == "+" + d;
    } else {
      var d := PaddedDigits(-(v as int), n);
      ParseDigits(d);
      assert "-" + Zeros(n) + NatToDigits(-(v as int)) == "-" + d;
    }
  }

  /** The digits of `m` after `n` zeros: a non-empty digit string whose value is `m`. */
  lemma PaddedDigits(m: nat, n: nat) returns (d: string)
    ensures d == Zeros(n) + NatToDigits(m)
    ensures |d| > 0 && AllDigits(d) && DigitsValue(d) == m
  {
    d := Zeros(n) + NatToDigits(m);
    LeadingZerosValue(n, NatToDigits(m));
    DigitsRoundTrip(m);
  }

  /** A digit string too large for an `int` is refused, with or without a sign; "2147483648" is one. */
  lemma ParseIntOutOfRange(d: string)
    requires |d| > 0 && AllDigits(d)
    ensures DigitsValue(d) >= 0x8000_0000 ==> ParseInt(d) == None && ParseInt("+" + d) == None
    ensures DigitsValue(d) > 0x8000_0000 ==> ParseInt("-" + d) == None
    ensures DigitsValue(d) == 0x8000_0000 ==> ParseInt("-" + d) == Some(-0x8000_0000)
  {
    ParseDigits(d);
  }

  /** The digits of 2^31, one past the largest `int`, do not parse. */
  lemma ParseIntJustTooLarge()
    ensures ParseInt(NatToDigits(0x8000_0000)) == None
  {
    DigitsRoundTrip(0x8000_0000);
    ParseIntOutOfRange(NatToDigits(0x8000_0000));
  }

  /** Empty text and a lone sign are refused. */
  lemma ParseIntNeedsADigit()
    ensures ParseInt("") == None && ParseInt("+") == None && ParseInt("-") == None
  {
  }

  /** Text that is not an optionally signed run of digits is refused, so an interval such as "1.5" or "abc" is invalid. */
  lemma ParseIntRefusesNonDigits(s: string, k: nat)
    requires 0 < k < |s| && !IsDigit(s[k])
    ensures ParseInt(s) == None
  {
    if |s| > 0 && (s[0] == '-' || s[0] == '+') {
      assert s[1..][k - 1] == s[k];
    }
  }
}
