/** How PHP turns a string used as an array key into the key it stores:
    a string that is the canonical decimal form of a 64-bit integer
    becomes an int key, every other string stays a string key. */
module PhpKey {
  import opened PhpValue

  const PHP_INT_MAX: int := 9223372036854775807
  const PHP_INT_MIN: int := -9223372036854775808

  predicate IsDigit(c: char) {
    '0' <= c <= '9'
  }

  predicate AllDigits(s: string) {
    forall i :: 0 <= i < |s| ==> IsDigit(s[i])
  }

  function DigitValue(c: char): nat
    requires IsDigit(c)
  {
    (c as int) - ('0' as int)
  }

  function DigitChar(d: nat): char
    requires d < 10
  {
    (('0' as int) + d) as char
  }

  /** The number a string of decimal digits denotes. */
  function DigitsValue(s: string): nat
    requires AllDigits(s)
    decreases |s|
  {
    if |s| == 0 then 0 else DigitsValue(s[..|s| - 1]) * 10 + DigitValue(s[|s| - 1])
  }

  /** Digits without a leading zero, or the single digit "0". */
  predicate IsDecimal(s: string) {
    |s| > 0 && AllDigits(s) && (s[0] == '0' ==> |s| == 1)
  }

  /** The key PHP stores for the string key `s` ("0" and "-7" become int
      keys; "00", "-0", "+1", " 1" and out-of-range numbers stay strings). */
  function CanonicalKey(s: string): (k: Key)
    ensures k.StrKey? ==> k.s == s
    ensures k.IntKey? ==> PHP_INT_MIN <= k.n <= PHP_INT_MAX
  {
    if IsDecimal(s) && DigitsValue(s) <= PHP_INT_MAX then
      IntKey(DigitsValue(s))
    else if 2 <= |s| && s[0] == '-' && s[1] != '0' && IsDecimal(s[1..])
            && DigitsValue(s[1..]) <= -PHP_INT_MIN then
      IntKey(-(DigitsValue(s[1..]) as int))
    else
      StrKey(s)
  }

  /** The decimal form of a natural number. */
  function NatToString(n: nat): string
    decreases n
  {
    if n < 10 then [DigitChar(n)] else NatToString(n / 10) + [DigitChar(n % 10)]
  }

  /** PHP's (string) cast of an int. */
  function IntToString(n: int): string {
    if n < 0 then "-" + NatToString(-n) else NatToString(n)
  }

  lemma {:induction false} NatToStringIsDecimal(n: nat)
    ensures IsDecimal(NatToString(n)) && DigitsValue(NatToString(n)) == n
    decreases n
  {
    var s := NatToString(n);
    if n < 10 {
      assert s[..|s| - 1] == [];
    } else {
      var p := NatToString(n / 10);
      NatToStringIsDecimal(n / 10);
      assert s == p + [DigitChar(n % 10)];
      assert s[..|s| - 1] == p;
    }
  }

  lemma {:induction false} DecimalIsPositive(s: string)
    requires |s| > 0 && AllDigits(s) && s[0] != '0'
    ensures DigitsValue(s) >= 1
    decreases |s|
  {
    if |s| > 1 {
      DecimalIsPositive(s[..|s| - 1]);
    } else {
      assert s[..0] == [];
    }
  }

  lemma {:induction false} DecimalRoundTrip(s: string)
    requires IsDecimal(s)
    ensures NatToString(DigitsValue(s)) == s
    decreases |s|
  {
    var p := s[..|s| - 1];
    var d := DigitValue(s[|s| - 1]);
    if |s| == 1 {
      assert p == [];
      assert DigitsValue(s) == d;
    } else {
      assert IsDecimal(p);
      DecimalIsPositive(p);
      DecimalRoundTrip(p);
      var n := DigitsValue(s);
      assert n == DigitsValue(p) * 10 + d;
      assert n / 10 == DigitsValue(p) && n % 10 == d;
      assert NatToString(n) == p + [DigitChar(d)];
      assert s == p + [s[|s| - 1]];
    }
  }

  /** Every in-range int written as a string is found again as that int key:
      `$a['0']` and `$a[0]` name the same slot. */
  lemma CanonicalKeyOfIntString(n: int)
    requires PHP_INT_MIN <= n <= PHP_INT_MAX
    ensures CanonicalKey(IntToString(n)) == IntKey(n)
  {
    if n < 0 {
      var t := NatToString(-n);
      NatToStringIsDecimal(-n);
      var s := "-" + t;
      assert s[1..] == t;
      assert !IsDecimal(s);
    } else {
      NatToStringIsDecimal(n);
    }
  }

  /** A string that becomes an int key is exactly that int's decimal form. */
  lemma CanonicalKeyIntInverse(s: string)
    requires CanonicalKey(s).IntKey?
    ensures IntToString(CanonicalKey(s).n) == s
  {
    if IsDecimal(s) && DigitsValue(s) <= PHP_INT_MAX {
      DecimalRoundTrip(s);
    } else {
      var t := s[1..];
      DecimalIsPositive(t);
      DecimalRoundTrip(t);
      assert s == "-" + t;
    }
  }

  /** Distinct key strings always denote distinct array slots. */
  lemma CanonicalKeyInjective(s: string, t: string)
    requires CanonicalKey(s) == CanonicalKey(t)
    ensures s == t
  {
    if CanonicalKey(s).IntKey? {
      CanonicalKeyIntInverse(s);
      CanonicalKeyIntInverse(t);
    }
  }
}
