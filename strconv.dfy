/**
 * Decimal integer text: what fmt's %d verb writes and what strconv.Atoi reads back.
 * Product ids cross this boundary twice: the resolvers emit them with %d and parse
 * incoming ids with Atoi, and the search index stores id and price as text.
 */
module Strconv {
  import opened Results

  /** The bounds of Go's 64-bit int, the only values strconv.Atoi returns. */
  const MinInt: int := -0x8000_0000_0000_0000
  const MaxInt: int := 0x7FFF_FFFF_FFFF_FFFF

  predicate IsInt(n: int) { MinInt <= n <= MaxInt }

  predicate IsDigit(c: char) { '0' <= c <= '9' }

  predicate AllDigits(s: string) { forall i :: 0 <= i < |s| ==> IsDigit(s[i]) }

  function DigitChar(d: nat): (c: char)
    requires d < 10
    ensures IsDigit(c) && (c as int) - ('0' as int) == d
  {
    (('0' as int) + d) as char
  }

  /** The decimal digits of n, most significant first, with no leading zero. */
  function Digits(n: nat): (s: string)
    ensures |s| >= 1 && AllDigits(s)
    ensures |s| > 1 ==> s[0] != '0'
  {
    if n < 10 then [DigitChar(n)] else Digits(n / 10) + [DigitChar(n % 10)]
  }

  /** fmt.Sprintf("%d", n): a minus sign for negative values, then the digits of |n|. */
  function FormatInt(n: int): (s: string)
    ensures |s| >= 1
    ensures n < 0 <==> s[0] == '-'
  {
    if n < 0 then "-" + Digits(-n) else Digits(n)
  }

  /** The value of a run of decimal digits read most significant first. */
  function DigitsValue(s: string): nat
    requires AllDigits(s)
  {
    if s == [] then 0 else DigitsValue(s[..|s| - 1]) * 10 + ((s[|s| - 1] as int) - ('0' as int))
  }

  /** The text after an optional leading '+' or '-'. */
  function Unsigned(s: string): string
  {
    if |s| > 0 && (s[0] == '+' || s[0] == '-') then s[1..] else s
  }

  /** An optional sign followed by at least one decimal digit. */
  predicate IsDecimal(s: string)
  {
    Unsigned(s) != [] && AllDigits(Unsigned(s))
  }

  /** The value a decimal denotes: its digits' value, negated after a leading '-'. */
  function SignedValue(s: string): int
    requires IsDecimal(s)
  {
    if s[0] == '-' then 0 - (DigitsValue(Unsigned(s)) as int) else DigitsValue(Unsigned(s))
  }

  /**
   * strconv.Atoi: an optional sign, then one or more decimal digits whose value fits
   * in a 64-bit int. Anything else is an error, here None.
   */
  function Atoi(s: string): (r: Option<int>)
    ensures r.Some? <==> IsDecimal(s) && IsInt(SignedValue(s))
    ensures r.Some? ==> r.value == SignedValue(s)
    ensures r.Some? ==> (r.value < 0 ==> s[0] == '-')
  {
    var digits := Unsigned(s);
    if digits == [] || !AllDigits(digits) then None
    else
      var v: int := if s[0] == '-' then 0 - (DigitsValue(digits) as int) else DigitsValue(digits);
      if IsInt(v) then Some(v) else None
  }

  /** A leading '+' changes nothing: "+7" parses as "7" does. */
  lemma AtoiPlusSign(t: string)
    requires t != [] && AllDigits(t)
    ensures Atoi("+" + t) == Atoi(t)
  {
    assert Unsigned("+" + t) == t;
    assert Unsigned(t) == t;
  }

  /** A leading zero adds nothing to the value of a run of digits. */
  lemma {:induction false} LeadingZeroValue(t: string)
    requires AllDigits(t)
    ensures AllDigits("0" + t) && DigitsValue("0" + t) == DigitsValue(t)
  {
    var z := "0" + t;
    assert AllDigits(z) by {
      forall i | 0 <= i < |z| ensures IsDigit(z[i]) {
        if i > 0 { assert z[i] == t[i - 1]; }
      }
    }
    if t != [] {
      var front := t[..|t| - 1];
      assert z[..|z| - 1] == "0" + front;
      assert z[|z| - 1] == t[|t| - 1];
      LeadingZeroValue(front);
    }
  }

  /** Leading zeros change nothing: "007" parses as "7" does. */
  lemma AtoiLeadingZero(t: string)
    requires t != [] && AllDigits(t)
    ensures Atoi("0" + t) == Atoi(t)
  {
    LeadingZeroValue(t);
    assert Unsigned("0" + t) == "0" + t;
    assert Unsigned(t) == t;
  }

  lemma {:induction false} DigitsRoundTrip(n: nat)
    ensures DigitsValue(Digits(n)) == n
  {
    if n >= 10 {
      DigitsRoundTrip(n / 10);
      var s := Digits(n);
      assert s[..|s| - 1] == Digits(n / 10);
    }
  }

  /** Every int that %d writes, Atoi reads back unchanged. */
  lemma AtoiFormatInt(n: int)
    ensures IsInt(n) ==> Atoi(FormatInt(n)) == Some(n)
  {
    var s := FormatInt(n);
    if n < 0 {
      DigitsRoundTrip(-n);
      assert Unsigned(s) == Digits(-n);
    } else {
      DigitsRoundTrip(n);
      assert Unsigned(s) == Digits(n);
    }
  }

  lemma DigitsInjective(a: nat, b: nat)
    requires Digits(a) == Digits(b)
    ensures a == b
  {
    DigitsRoundTrip(a);
    DigitsRoundTrip(b);
  }

  /** Distinct ints are written as distinct text (for every int, not only the 64-bit ones). */
  lemma FormatIntInjective(a: int, b: int)
    ensures FormatInt(a) == FormatInt(b) <==> a == b
  {
    var s := FormatInt(a);
    if s == FormatInt(b) {
      if a < 0 {
        assert b < 0;
        assert s[1..] == Digits(-a) && s[1..] == Digits(-b);
        DigitsInjective(-a, -b);
      } else {
        assert b >= 0;
        DigitsInjective(a, b);
      }
    }
  }

  /** A product id with no digit in it, such as "invalid", is rejected. */
  lemma AtoiRejectsNonNumeric(s: string)
    requires forall i :: 0 <= i < |s| ==> !IsDigit(s[i])
    ensures Atoi(s) == None
  {
  }
}
