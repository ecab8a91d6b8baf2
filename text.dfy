/** Decimal text of C# integers, as `int.ToString()` renders it in the invariant
    culture (a leading `-` for negative numbers, no leading zeros), and the
    facts the change-detection handlers rely on when they glue such text to a
    tag. */
module DecimalText {

  const Digits: string := "0123456789"

  predicate IsDigit(c: char) {
    '0' <= c <= '9'
  }

  predicate IsUpper(c: char) {
    'A' <= c <= 'Z'
  }

  /** A tag such as `STR` or `FHR`: upper-case letters only. */
  predicate IsTag(t: string) {
    |t| > 0 && forall i :: 0 <= i < |t| ==> IsUpper(t[i])
  }

  /** Decimal digits of a natural number, most significant first. */
  function NatString(n: nat): (s: string)
    ensures |s| > 0 && IsDigit(s[0]) && IsDigit(s[|s| - 1])
    ensures n < 10 <==> |s| == 1
  {
    if n < 10 then [Digits[n]]
    else NatString(n / 10) + [Digits[n % 10]]
  }

  /** `int.ToString()`. */
  function DecimalString(v: int): (s: string)
    ensures |s| > 0 && IsDigit(s[|s| - 1])
    ensures v < 0 <==> s[0] == '-'
  {
    if v < 0 then "-" + NatString(-v) else NatString(v)
  }

  lemma {:induction false} NatStringInjective(n: nat, m: nat)
    requires NatString(n) == NatString(m)
    ensures n == m
  {
    if n >= 10 && m >= 10 {
      var s := NatString(n);
      assert s[..|s| - 1] == NatString(n / 10);
      assert s[..|s| - 1] == NatString(m / 10);
      NatStringInjective(n / 10, m / 10);
      assert Digits[n % 10] == s[|s| - 1] == Digits[m % 10];
    }
  }

  /** Distinct numbers have distinct decimal text. */
  lemma DecimalStringInjective(v: int, w: int)
    requires DecimalString(v) == DecimalString(w)
    ensures v == w
  {
    if v < 0 && w < 0 {
      assert NatString(-v) == DecimalString(v)[1..];
      assert NatString(-w) == DecimalString(w)[1..];
      NatStringInjective(-v, -w);
    } else if v >= 0 && w >= 0 {
      NatStringInjective(v, w);
    }
  }

  /** `string.Concat(v, t)` for a tag `t`. */
  function Tagged(v: int, t: string): (s: string)
    ensures |s| == |DecimalString(v)| + |t|
    ensures s[..|DecimalString(v)|] == DecimalString(v) && s[|DecimalString(v)|..] == t
  {
    DecimalString(v) + t
  }

  /** Number and tag can be read back from their concatenation: the tag is
      the run of letters at the end, which a decimal text never ends in. */
  lemma TaggedInjective(v: int, t: string, w: int, u: string)
    requires IsTag(t) && IsTag(u)
    requires Tagged(v, t) == Tagged(w, u)
    ensures v == w && t == u
  {
    var s := Tagged(v, t);
    var dv, dw := DecimalString(v), DecimalString(w);
    if |dv| != |dw| {
      assert false;
    }
    assert |dv| == |dw|;
    assert dv == s[..|dv|] == dw;
    DecimalStringInjective(v, w);
  }
}
