/**
 * Identifiers are the shared counter rendered in decimal (`newId.toString()`),
 * and the counter slot is read back with `parseInt`.
 */
module Decimal {

  /** Every character is one of `0`–`9`. */
  predicate IsDigits(s: string) {
    forall k :: 0 <= k < |s| ==> '0' <= s[k] <= '9'
  }

  /** No superfluous leading `0`: the only numeral starting with `0` is `"0"` itself. */
  predicate NoLeadingZero(s: string) {
    |s| > 1 ==> s[0] != '0'
  }

  /** The character of a single decimal digit. */
  function Digit(d: nat): (c: char)
    requires d < 10
    ensures '0' <= c <= '9' && c as int - '0' as int == d
  {
    (d + '0' as int) as char
  }

  /** `n.toString()` for a non-negative integer: most significant digit first, no leading zero. */
  function NatToDecimal(n: nat): (s: string)
    ensures |s| > 0 && IsDigits(s)
    ensures NoLeadingZero(s)
    decreases n
  {
    if n < 10 then [Digit(n)] else NatToDecimal(n / 10) + [Digit(n % 10)]
  }

  /** `parseInt(s)` on a string of decimal digits; the empty string (which the source replaces by `'0'`) reads as 0. */
  function ParseDecimal(s: string): (r: nat)
    requires IsDigits(s)
    ensures s == [] ==> r == 0
    ensures |s| == 1 ==> r == s[0] as int - '0' as int
  {
    if s == [] then 0 else ParseDecimal(s[..|s| - 1]) * 10 + (s[|s| - 1] as int - '0' as int)
  }

  /** Leading zeros do not change what `parseInt` reads. */
  lemma {:induction false} ParseIgnoresLeadingZero(s: string)
    requires IsDigits(s) && |s| > 0 && s[0] == '0'
    ensures ParseDecimal(s) == ParseDecimal(s[1..])
    decreases |s|
  {
    var init := s[..|s| - 1];
    if |init| > 0 {
      assert init[1..] == s[1..][..|s| - 2];
      ParseIgnoresLeadingZero(init);
    }
  }

  /** Reading back what was written: `parseInt(n.toString()) == n`. */
  lemma {:induction false} ParseNatToDecimal(n: nat)
    ensures ParseDecimal(NatToDecimal(n)) == n
    decreases n
  {
    var s := NatToDecimal(n);
    if n >= 10 {
      assert s[..|s| - 1] == NatToDecimal(n / 10);
      ParseNatToDecimal(n / 10);
    }
  }

  /** A numeral that starts with a non-zero digit reads as a positive number. */
  lemma {:induction false} LeadingNonZeroPositive(s: string)
    requires IsDigits(s) && |s| > 0 && s[0] != '0'
    ensures ParseDecimal(s) >= 1
    decreases |s|
  {
    if |s| > 1 {
      LeadingNonZeroPositive(s[..|s| - 1]);
    }
  }

  /** A numeral without superfluous leading zeros is exactly what `toString` writes for its value. */
  lemma {:induction false} CanonicalIsDecimal(s: string)
    requires IsDigits(s) && |s| > 0 && NoLeadingZero(s)
    ensures NatToDecimal(ParseDecimal(s)) == s
    decreases |s|
  {
    var init := s[..|s| - 1];
    var d := s[|s| - 1] as int - '0' as int;
    if |s| == 1 {
      assert [Digit(d)] == s;
    } else {
      LeadingNonZeroPositive(init);
      CanonicalIsDecimal(init);
      var n := ParseDecimal(s);
      assert n / 10 == ParseDecimal(init) && n % 10 == d;
      assert s == init + [Digit(d)];
    }
  }

  /** Distinct counter values render to distinct identifiers. */
  lemma DecimalInjective(m: nat, n: nat)
    ensures NatToDecimal(m) == NatToDecimal(n) ==> m == n
  {
    ParseNatToDecimal(m);
    ParseNatToDecimal(n);
  }
}
