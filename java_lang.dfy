/** Java `int` semantics and the two `java.lang.Integer` conversions the app relies on:
    the decimal text of an `int` (what `host + ":" + port` produces) and `Integer.parseInt`. */
module JavaLang {

  datatype Option<+T> = None | Some(value: T)

  const MinInt: int := -0x8000_0000
  const MaxInt: int := 0x7fff_ffff
  const Modulus: int := 0x1_0000_0000

  /** A Java `int`. */
  type Int32 = x: int | MinInt <= x <= MaxInt

  /** Two's-complement wrap-around of a mathematical result into a Java `int`. */
  function Wrap(x: int): (r: Int32)
    ensures (x - r) % Modulus == 0
    ensures MinInt <= x <= MaxInt ==> r == x
  {
    var q := (x - MinInt) / Modulus;
    var r := (x - MinInt) % Modulus + MinInt;
    assert x - MinInt == q * Modulus + (r - MinInt);
    assert x - r == q * Modulus;
    r
  }

  // ---------------------------------------------------------------------------
  // Decimal digits

  predicate IsDigit(c: char) { '0' <= c <= '9' }

  function DigitValue(c: char): (d: nat)
    requires IsDigit(c)
    ensures d < 10
  {
    (c as int) - ('0' as int)
  }

  function DigitChar(d: nat): (c: char)
    requires d < 10
    ensures IsDigit(c) && DigitValue(c) == d
  {
    (('0' as int) + d) as char
  }

  predicate AllDigits(s: string) {
    forall i | 0 <= i < |s| :: IsDigit(s[i])
  }

  /** The value of a string of decimal digits, most significant first. */
  function DigitsValue(s: string): (v: nat)
    requires AllDigits(s)
  {
    if s == [] then 0 else DigitsValue(s[..|s| - 1]) * 10 + DigitValue(s[|s| - 1])
  }

  /** The shortest decimal text of `n`: no sign and no leading zero. */
  function NatDigits(n: nat): (s: string)
    ensures |s| > 0 && AllDigits(s)
    ensures s[0] != '0' || n == 0
  {
    if n < 10 then [DigitChar(n)] else NatDigits(n / 10) + [DigitChar(n % 10)]
  }

  /** `Integer.toString(n)`, which is also what string concatenation produces for an `int`:
      a minus sign exactly for negative numbers, then at least one digit, and so never a
      colon. */
  function ToDecimal(n: int): (s: string)
    ensures |s| > 0 && ':' !in s
    ensures n < 0 ==> s[0] == '-' && |s| > 1 && AllDigits(s[1..])
    ensures n >= 0 ==> AllDigits(s)
  {
    var digits := if n < 0 then NatDigits(-n) else NatDigits(n);
    var s := if n < 0 then "-" + digits else digits;
    assert forall i | 0 <= i < |s| :: s[i] != ':' by {
      forall i | 0 <= i < |s| ensures s[i] != ':' {
        if n < 0 && i > 0 { assert s[i] == digits[i - 1]; }
      }
    }
    assert n < 0 ==> s[1..] == digits;
    s
  }

  /** The value of `s` read as an optional single `+` or `-` followed by at least one
      decimal digit and nothing else; None when `s` has any other shape. No bound. */
  function SignedValue(s: string): (r: Option<int>)
    ensures r.Some? ==> |s| > 0
  {
    if |s| > 0 && (s[0] == '-' || s[0] == '+') then
      if |s| > 1 && AllDigits(s[1..]) then
        var magnitude: int := DigitsValue(s[1..]);
        Some(if s[0] == '-' then -magnitude else magnitude)
      else None
    else if |s| > 0 && AllDigits(s) then Some(DigitsValue(s))
    else None
  }

  /** `Integer.parseInt(s)` (radix 10): None stands for the `NumberFormatException`. */
  function ParseInt(s: string): (r: Option<Int32>)
    ensures r.Some? ==> SignedValue(s) == Some(r.value as int)
    ensures r.None? <==> (SignedValue(s).None? || !(MinInt <= SignedValue(s).value <= MaxInt))
  {
    match SignedValue(s)
    case Some(v) => if MinInt <= v <= MaxInt then Some(v) else None
    case None => None
  }

  // ---------------------------------------------------------------------------
  // Lemmas

  /** Reading back the digits of `n` gives `n`. */
  lemma {:induction false} DigitsValueOfNatDigits(n: nat)
    ensures DigitsValue(NatDigits(n)) == n
  {
    if n >= 10 {
      var s := NatDigits(n);
      assert s[..|s| - 1] == NatDigits(n / 10);
      DigitsValueOfNatDigits(n / 10);
    }
  }

  /** The decimal text of any integer reads back as that integer. */
  lemma SignedValueOfToDecimal(n: int)
    ensures SignedValue(ToDecimal(n)) == Some(n)
  {
    if n < 0 {
      var digits := NatDigits(-n);
      var s := "-" + digits;
      assert s == ToDecimal(n);
      assert s[0] == '-' && s[1..] == digits;
      DigitsValueOfNatDigits(-n);
      assert DigitsValue(s[1..]) == -n;
    } else {
      var digits := NatDigits(n);
      assert digits == ToDecimal(n) && digits[0] != '-' && digits[0] != '+';
      DigitsValueOfNatDigits(n);
    }
  }

  /** `Integer.parseInt(Integer.toString(n)) == n` for every Java `int`. */
  lemma ParseIntToDecimal(n: Int32)
    ensures ParseInt(ToDecimal(n)) == Some(n)
  {
    SignedValueOfToDecimal(n);
  }

  /** Distinct integers have distinct decimal texts. */
  lemma ToDecimalInjective(m: int, n: int)
    requires ToDecimal(m) == ToDecimal(n)
    ensures m == n
  {
    SignedValueOfToDecimal(m);
    SignedValueOfToDecimal(n);
  }

  // ---------------------------------------------------------------------------
  // Leading zeros

  /** `k` zero digits. */
  function Zeros(k: nat): (s: string)
    ensures |s| == k && AllDigits(s)
    ensures forall i | 0 <= i < k :: s[i] == '0'
  {
    if k == 0 then [] else Zeros(k - 1) + ['0']
  }

  /** The number of zero digits `s` starts with. */
  function LeadingZeros(s: string): (k: nat)
    ensures k <= |s|
    ensures forall i | 0 <= i < k :: s[i] == '0'
    ensures k < |s| ==> s[k] != '0'
  {
    if s == [] || s[0] != '0' then 0 else 1 + LeadingZeros(s[1..])
  }

  /** A string of zeros is worth zero. */
  lemma {:induction false} ZerosValue(k: nat)
    ensures DigitsValue(Zeros(k)) == 0
  {
    if k > 0 {
      var z := Zeros(k);
      assert z[..k - 1] == Zeros(k - 1) && z[k - 1] == '0';
      ZerosValue(k - 1);
    }
  }

  /** Leading zeros do not change the value of a digit string. */
  lemma {:induction false} DigitsValueOfPadded(k: nat, d: string)
    requires AllDigits(d)
    ensures DigitsValue(Zeros(k) + d) == DigitsValue(d)
    decreases |d|
  {
    var s := Zeros(k) + d;
    if d == [] {
      assert s == Zeros(k);
      ZerosValue(k);
    } else {
      var front := d[..|d| - 1];
      assert s[..|s| - 1] == Zeros(k) + front;
      assert s[|s| - 1] == d[|d| - 1];
      DigitsValueOfPadded(k, front);
    }
  }

  /** A digit string that does not start with zero has a positive value. */
  lemma {:induction false} DigitsValuePositive(d: string)
    requires AllDigits(d) && d != [] && d[0] != '0'
    ensures DigitsValue(d) > 0
    decreases |d|
  {
    if |d| > 1 {
      DigitsValuePositive(d[..|d| - 1]);
    }
  }

  /** `DigitChar` undoes `DigitValue`. */
  lemma DigitCharOfValue(c: char)
    requires IsDigit(c)
    ensures DigitChar(DigitValue(c)) == c
  {
  }

  /** A digit string without a leading zero is the shortest decimal text of its value. */
  lemma {:induction false} NatDigitsOfDigitsValue(d: string)
    requires AllDigits(d) && d != [] && d[0] != '0'
    ensures NatDigits(DigitsValue(d)) == d
    decreases |d|
  {
    var last := d[|d| - 1];
    DigitCharOfValue(last);
    if |d| > 1 {
      var front := d[..|d| - 1];
      DigitsValuePositive(front);
      NatDigitsOfDigitsValue(front);
      var v := DigitsValue(d);
      assert v / 10 == DigitsValue(front) && v % 10 == DigitValue(last);
      assert d == front + [last];
    }
  }

  /** A digit string is its leading zeros followed by the digits after them. */
  lemma LeadingZerosSplit(d: string)
    requires AllDigits(d)
    ensures var k := LeadingZeros(d);
      d == Zeros(k) + d[k..] && AllDigits(d[k..])
  {
    var k := LeadingZeros(d);
    var rest, zeros := d[k..], Zeros(k);
    forall i | 0 <= i < |rest| ensures IsDigit(rest[i]) {
      assert rest[i] == d[k + i];
    }
    forall i | 0 <= i < |d| ensures d[i] == (zeros + rest)[i] {
      if i < k {
        assert d[i] == '0' && zeros[i] == '0';
      }
    }
  }

  /** Every digit string is some zeros followed by the shortest decimal text of its value,
      or is all zeros. */
  lemma SplitLeadingZeros(d: string)
    requires AllDigits(d)
    ensures var k := LeadingZeros(d);
      && DigitsValue(d) == DigitsValue(d[k..])
      && (k < |d| ==> NatDigits(DigitsValue(d)) == d[k..])
      && (k == |d| ==> DigitsValue(d) == 0)
  {
    var k := LeadingZeros(d);
    var rest := d[k..];
    LeadingZerosSplit(d);
    DigitsValueOfPadded(k, rest);
    if k < |d| {
      assert rest[0] == d[k];
      NatDigitsOfDigitsValue(rest);
    }
  }
}
