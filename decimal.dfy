/**
 * The `Numeric(10, 2)` columns (prices, totals, weights) hold exact
 * fixed-point values with two places. The model keeps them as integer
 * hundredths; this module relates that integer to the decimal text Shopify
 * sends and the database prints, and proves the text round-trips.
 */
module Decimal {
  import opened Wrappers

  /** Ten digits in all, two after the point: |v| <= 99999999.99. */
  predicate FitsNumeric10x2(hundredths: int) {
    -10_000_000_000 < hundredths < 10_000_000_000
  }

  predicate IsDigit(c: char) { '0' <= c <= '9' }

  predicate AllDigits(s: string) { forall i :: 0 <= i < |s| ==> IsDigit(s[i]) }

  function DigitChar(d: nat): (c: char)
    requires d < 10
    ensures IsDigit(c) && c as int - '0' as int == d
  {
    ('0' as int + d) as char
  }

  /** The shortest decimal numeral of `n`. */
  function Numeral(n: nat): (s: string)
    ensures |s| > 0 && AllDigits(s)
    ensures |s| > 1 ==> s[0] != '0'
  {
    if n < 10 then [DigitChar(n)] else Numeral(n / 10) + [DigitChar(n % 10)]
  }

  /** The value of a numeral: its digits read in base ten. */
  function NumeralValue(s: string): nat
    requires AllDigits(s)
  {
    if |s| == 0 then 0 else NumeralValue(s[..|s| - 1]) * 10 + (s[|s| - 1] as int - '0' as int)
  }

  lemma {:induction false} NumeralRoundTrip(n: nat)
    ensures NumeralValue(Numeral(n)) == n
  {
    if n >= 10 {
      NumeralRoundTrip(n / 10);
      var s := Numeral(n);
      assert s[..|s| - 1] == Numeral(n / 10);
    }
  }

  /** The text of a non-negative value: the integer part, a point and exactly two places. */
  function Unsigned(a: nat): (s: string)
    ensures |s| >= 4 && s[0] != '-' && s[|s| - 3] == '.' && AllDigits(s[|s| - 2..])
  {
    Numeral(a / 100) + "." + [DigitChar(a % 100 / 10), DigitChar(a % 10)]
  }

  /** The text of a value: a minus for a negative one, then its magnitude. */
  function Render(hundredths: int): (s: string)
    ensures |s| >= 4 && s[|s| - 3] == '.' && AllDigits(s[|s| - 2..])
    ensures (s[0] == '-') <==> hundredths < 0
  {
    if hundredths < 0 then "-" + Unsigned(-hundredths) else Unsigned(hundredths)
  }

  function Pow10(k: nat): (p: nat)
    ensures p >= 1
  {
    if k == 0 then 1 else 10 * Pow10(k - 1)
  }

  /** A numeral has at most `k` digits exactly when its value is below ten to the `k`. */
  lemma {:induction false} NumeralLength(n: nat, k: nat)
    requires k >= 1
    ensures |Numeral(n)| <= k <==> n < Pow10(k)
  {
    if n >= 10 {
      assert |Numeral(n)| == |Numeral(n / 10)| + 1;
      if k == 1 {
        assert |Numeral(n / 10)| >= 1;
      } else {
        NumeralLength(n / 10, k - 1);
        assert n / 10 < Pow10(k - 1) <==> n < 10 * Pow10(k - 1);
      }
    } else {
      assert Pow10(k) >= 10 by { assert Pow10(k) == 10 * Pow10(k - 1); }
    }
  }

  /**
   * `DECIMAL(10, 2)` holds a value exactly when its text has at most eight
   * digits before the point: one more character for the minus of a negative value.
   */
  lemma RenderFits(hundredths: int)
    ensures FitsNumeric10x2(hundredths) <==> |Render(hundredths)| <= (if hundredths < 0 then 12 else 11)
  {
    var a: nat := if hundredths < 0 then -hundredths else hundredths;
    assert |Unsigned(a)| == |Numeral(a / 100)| + 3;
    NumeralLength(a / 100, 8);
    assert Pow10(8) == 100_000_000 by {
      assert Pow10(2) == 100;
      assert Pow10(4) == 100 * Pow10(2);
      assert Pow10(6) == 100 * Pow10(4);
      assert Pow10(8) == 100 * Pow10(6);
    }
    assert a / 100 < 100_000_000 <==> a < 10_000_000_000;
  }

  /** The position of the first `c` in `s`, if any. */
  function IndexOf(s: string, c: char): (r: Option<nat>)
    ensures r.Some? ==> r.value < |s| && s[r.value] == c && forall j :: 0 <= j < r.value ==> s[j] != c
    ensures r.None? ==> forall j :: 0 <= j < |s| ==> s[j] != c
  {
    if |s| == 0 then None
    else if s[0] == c then Some(0)
    else match IndexOf(s[1..], c)
      case Some(k) => Some(k + 1)
      case None => None
  }

  /** A `c` after a stretch without one is found right after that stretch. */
  lemma {:induction false} IndexOfAfter(w: string, c: char, rest: string)
    requires forall j :: 0 <= j < |w| ==> w[j] != c
    requires |rest| > 0 && rest[0] == c
    ensures IndexOf(w + rest, c) == Some(|w|)
  {
    if |w| > 0 {
      IndexOfAfter(w[1..], c, rest);
      assert (w + rest)[1..] == w[1..] + rest;
    }
  }

  /** The unsigned part: digits, then optionally a point and at most two places. */
  function ParseUnsigned(s: string): (r: Option<nat>)
    ensures r.Some? ==> |s| > 0 && IsDigit(s[0])
    ensures r.Some? ==> forall i :: 0 <= i < |s| ==> IsDigit(s[i]) || s[i] == '.'
    ensures forall k :: 0 <= k < |s| && s[k] == '.' && |s| - k > 3 ==> r.None?
  {
    match IndexOf(s, '.')
    case None => if |s| > 0 && AllDigits(s) then Some(NumeralValue(s) * 100) else None
    case Some(k) =>
      var whole := s[..k];
      var frac := s[k + 1..];
      if |whole| == 0 || !AllDigits(whole) || |frac| > 2 || !AllDigits(frac) then None
      else
        var places := if |frac| == 0 then 0
                      else if |frac| == 1 then (frac[0] as int - '0' as int) * 10
                      else NumeralValue(frac);
        Some(NumeralValue(whole) * 100 + places)
  }

  /** A decimal text as hundredths; None for anything that is not a numeral with at most two places. */
  function Parse(s: string): (r: Option<int>)
    ensures r.Some? && |s| > 0 && s[0] == '-' ==> r.value <= 0
    ensures r.Some? && (|s| == 0 || s[0] != '-') ==> r.value >= 0
    ensures r.Some? ==> |s| > 0 && (IsDigit(s[0]) || (s[0] == '-' && |s| > 1 && IsDigit(s[1])))
    ensures r.Some? ==> forall i :: 0 < i < |s| ==> IsDigit(s[i]) || s[i] == '.'
    ensures forall k :: 0 <= k < |s| && s[k] == '.' && |s| - k > 3 ==> r.None?
  {
    var negative := |s| > 0 && s[0] == '-';
    var sign: int := if negative then -1 else 1;
    match ParseUnsigned(if negative then s[1..] else s)
    case Some(v) => Some(sign * v)
    case None => None
  }

  lemma ParseUnsignedRoundTrip(a: nat)
    ensures ParseUnsigned(Unsigned(a)) == Some(a)
  {
    var whole := Numeral(a / 100);
    var frac := [DigitChar(a % 100 / 10), DigitChar(a % 10)];
    var body := Unsigned(a);
    IndexOfAfter(whole, '.', "." + frac);
    assert body == whole + ("." + frac);
    assert body[..|whole|] == whole;
    assert body[|whole| + 1..] == frac;
    NumeralRoundTrip(a / 100);
    assert frac[..1] == [DigitChar(a % 100 / 10)];
    assert frac[..1][..0] == [];
    var m := a % 100;
    assert NumeralValue(frac[..1]) == m / 10;
    assert m % 10 == a % 10 by {
      assert a == (a / 100) * 100 + m;
      assert a == ((a / 100) * 10 + m / 10) * 10 + m % 10;
    }
    assert NumeralValue(frac) == (m / 10) * 10 + m % 10 == m;
  }

  /** Every value reads back from its text exactly. */
  lemma ParseRender(hundredths: int)
    ensures Parse(Render(hundredths)) == Some(hundredths)
  {
    if hundredths < 0 {
      ParseUnsignedRoundTrip(-hundredths);
      assert ("-" + Unsigned(-hundredths))[1..] == Unsigned(-hundredths);
    } else {
      ParseUnsignedRoundTrip(hundredths);
    }
  }
}
