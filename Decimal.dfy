/**
 * strconv.Itoa and strconv.Atoi on Go's 64-bit int: the step keys of a
 * workflow are stored as decimal strings and parsed back.
 */
module Decimal {

  import opened Json

  const MinInt64: int := -0x8000_0000_0000_0000
  const MaxInt64: int := 0x7fff_ffff_ffff_ffff

  /** Go's int on a 64-bit platform. */
  type Int64 = n: int | MinInt64 <= n <= MaxInt64

  predicate IsDigit(c: char) { '0' <= c <= '9' }

  predicate AllDigits(s: string) { forall i | 0 <= i < |s| :: IsDigit(s[i]) }

  function DigitChar(d: nat): char
    requires d < 10
  {
    "0123456789"[d]
  }

  /** The value of a string of decimal digits, most significant first. */
  function DigitsValue(s: string): nat
    requires AllDigits(s)
  {
    if s == [] then 0
    else DigitsValue(s[..|s| - 1]) * 10 + (s[|s| - 1] as int - '0' as int)
  }

  /** The shortest decimal digits of `n`. */
  function Digits(n: nat): (s: string)
    ensures |s| > 0
  {
    if n < 10 then [DigitChar(n)] else Digits(n / 10) + [DigitChar(n % 10)]
  }

  /** strconv.Itoa: a minus sign for negative numbers, then the digits. */
  function Itoa(n: int): string
  {
    if n < 0 then "-" + Digits(-n) else Digits(n)
  }

  /**
   * strconv.Atoi: an optional sign followed by at least one decimal digit,
   * whose value fits in a 64-bit int; anything else is an error (None).
   */
  function Atoi(s: string): (r: Option<int>)
    ensures r.Some? ==> MinInt64 <= r.value <= MaxInt64
    ensures r.Some? ==> |s| > 0 && (IsDigit(s[0]) || s[0] == '+' || s[0] == '-')
    ensures r.Some? ==> (s[0] == '+' || s[0] == '-' ==> |s| > 1) && forall i | 0 < i < |s| :: IsDigit(s[i])
  {
    if s == [] then None
    else
      var negative := s[0] == '-';
      var body := if s[0] == '-' || s[0] == '+' then s[1..] else s;
      if body == [] || !AllDigits(body) then None
      else
        var magnitude: int := DigitsValue(body);
        var v := if negative then 0 - magnitude else magnitude;
        if MinInt64 <= v <= MaxInt64 then Some(v) else None
  }

  /**
   * Digits, with or without a plus sign, whose value fits a 64-bit int
   * parse to that value, leading zeros included.
   */
  lemma AtoiDigits(s: string)
    requires s != [] && AllDigits(s) && DigitsValue(s) <= MaxInt64
    ensures Atoi(s) == Some(DigitsValue(s))
    ensures Atoi("+" + s) == Some(DigitsValue(s))
  {
    assert ("+" + s)[1..] == s;
  }

  /** A minus sign and digits whose negated value fits a 64-bit int parse to that negated value. */
  lemma AtoiNegated(s: string)
    requires s != [] && AllDigits(s) && DigitsValue(s) <= -MinInt64
    ensures Atoi("-" + s).Some? && Atoi("-" + s).value == -(DigitsValue(s) as int)
  {
    assert ("-" + s)[1..] == s;
  }

  lemma {:induction false} DigitsRoundTrip(n: nat)
    ensures AllDigits(Digits(n)) && DigitsValue(Digits(n)) == n
  {
    if n >= 10 {
      DigitsRoundTrip(n / 10);
      var s := Digits(n);
      assert s[..|s| - 1] == Digits(n / 10);
      assert s[|s| - 1] == DigitChar(n % 10);
    }
  }

  /** Parsing the decimal form of any 64-bit int gives the int back. */
  lemma AtoiItoa(n: int)
    requires MinInt64 <= n <= MaxInt64
    ensures Atoi(Itoa(n)) == Some(n)
  {
    DigitsRoundTrip(if n < 0 then -n else n);
    if n < 0 {
      AtoiNegated(Digits(-n));
    } else {
      AtoiDigits(Digits(n));
    }
  }

  /** Distinct ints have distinct decimal forms. */
  lemma ItoaInjective(m: int, n: int)
    requires MinInt64 <= m <= MaxInt64 && MinInt64 <= n <= MaxInt64
    requires Itoa(m) == Itoa(n)
    ensures m == n
  {
    AtoiItoa(m);
    AtoiItoa(n);
  }

  predicate IsLeast(k: Int64, keys: set<Int64>)
  {
    k in keys && forall j | j in keys :: k <= j
  }

  /** A non-empty set of 64-bit ints has a least element. */
  lemma {:induction false} MinimumExists(keys: set<Int64>) returns (least: Int64)
    requires keys != {}
    ensures IsLeast(least, keys)
    decreases |keys|
  {
    var x :| x in keys;
    if keys == {x} {
      return x;
    }
    var m := MinimumExists(keys - {x});
    least := if x < m then x else m;
    forall j | j in keys
      ensures least <= j
    {
      if j != x {
        assert j in keys - {x};
      }
    }
  }
}
