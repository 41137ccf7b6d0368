/** The text transforms of the mapping profiles, on plain decimal text. */
module Transforms {
  import opened Events

  /** The ASCII characters that `str.strip` removes. */
  predicate IsSpace(c: char) {
    c == ' ' || '\U{09}' <= c <= '\U{0d}' || '\U{1c}' <= c <= '\U{1f}'
  }

  predicate IsDigit(c: char) {
    '0' <= c <= '9'
  }

  predicate AllDigits(s: string) {
    forall i | 0 <= i < |s| :: IsDigit(s[i])
  }

  function Strip(s: string): string {
    if s == "" then ""
    else if IsSpace(s[0]) then Strip(s[1..])
    else if IsSpace(s[|s| - 1]) then Strip(s[..|s| - 1])
    else s
  }

  predicate Trimmed(s: string) {
    Strip(s) == s
  }

  function WithoutCommas(s: string): string {
    if s == "" then "" else (if s[0] == ',' then "" else [s[0]]) + WithoutCommas(s[1..])
  }

  /** `str(n)`. */
  function Digits(n: nat): string {
    if n < 10 then [DigitOf(n)] else Digits(n / 10) + [DigitOf(n % 10)]
  }

  function DigitOf(d: nat): char
    requires d < 10
  {
    '0' + d as char
  }

  function Value(s: string): nat
    requires AllDigits(s)
  {
    if s == "" then 0 else 10 * Value(s[..|s| - 1]) + (s[|s| - 1] as nat - '0' as nat)
  }

  lemma {:induction false} DigitsAreDigits(n: nat)
    ensures AllDigits(Digits(n)) && Digits(n) != ""
  {
    if n >= 10 {
      DigitsAreDigits(n / 10);
    }
  }

  lemma {:induction false} DigitsRoundTrip(n: nat)
    ensures AllDigits(Digits(n)) && Value(Digits(n)) == n
  {
    DigitsAreDigits(n);
    if n >= 10 {
      DigitsRoundTrip(n / 10);
      assert Digits(n)[..|Digits(n)| - 1] == Digits(n / 10);
    }
  }

  // ---- rupees -------------------------------------------------------------------------------

  /** Minor units as rupees with two decimals. */
  function Rupees(amount: nat): string {
    Digits(amount / 100) + "." + [DigitOf(amount % 100 / 10), DigitOf(amount % 10)]
  }

  const TEN_TO_28: nat := 10_000_000_000_000_000_000_000_000_000

  /** What one unit in the last of 28 significant digits is worth. */
  function LastPlace(n: nat): (unit: nat)
    ensures unit >= 1
  {
    if n < TEN_TO_28 then 1 else 10 * LastPlace(n / 10)
  }

  /** Decimal arithmetic keeps 28 significant digits, rounding ties to even. */
  function Rounded(n: nat): int {
    var unit := LastPlace(n);
    var q, rest := n / unit, n % unit;
    if 2 * rest < unit || (2 * rest == unit && q % 2 == 0) then q * unit else (q + 1) * unit
  }

  /** The position of the decimal point, or the length when there is none. */
  function PointAt(s: string): (i: nat)
    ensures i <= |s|
    ensures i < |s| ==> s[i] == '.'
    ensures forall j | 0 <= j < i :: s[j] != '.'
  {
    if s == "" || s[0] == '.' then 0 else 1 + PointAt(s[1..])
  }

  /** An unsigned amount with at most two decimals, in minor units. */
  function ParseUnsigned(s: string): Option<int> {
    var i := PointAt(s);
    var whole, fraction := s[..i], if i < |s| then s[i + 1..] else "";
    if !AllDigits(whole) || !AllDigits(fraction) || whole + fraction == "" || |fraction| > 2 then None
    else
      var units := Value(whole + fraction);
      Some(Rounded(if |fraction| == 2 then units else if |fraction| == 1 then 10 * units else 100 * units))
  }

  function ParseDecimalMinor(raw: string): Option<int> {
    var s := WithoutCommas(Strip(raw));
    if s != "" && s[0] in {'+', '-'} then
      var magnitude := ParseUnsigned(s[1..]);
      if magnitude.None? then None else Some(if s[0] == '-' then -magnitude.value else magnitude.value)
    else
      var magnitude := ParseUnsigned(s);
      if magnitude.None? then None else Some(magnitude.value)
  }

  /** `int(value.strip())`. */
  function ParseInteger(raw: string): Option<int> {
    var s := Strip(raw);
    var signed := s != "" && s[0] in {'+', '-'};
    var digits := if signed then s[1..] else s;
    if digits == "" || !AllDigits(digits) then None
    else
      var magnitude: int := Value(digits);
      Some(if signed && s[0] == '-' then -magnitude else magnitude)
  }

  function Upper(s: string): string {
    seq(|s|, i requires 0 <= i < |s| => if 'a' <= s[i] <= 'z' then 'A' + (s[i] - 'a') else s[i])
  }

  // ---- printing and parsing again -----------------------------------------------------------

  lemma {:induction false} NothingToStrip(s: string)
    requires s != "" && !IsSpace(s[0]) && !IsSpace(s[|s| - 1])
    ensures Trimmed(s)
  {
  }

  lemma {:induction false} NoCommas(s: string)
    requires ',' !in s
    ensures WithoutCommas(s) == s
  {
    if s != "" {
      NoCommas(s[1..]);
      assert s == [s[0]] + s[1..];
    }
  }

  lemma {:induction false} PointAfter(whole: string, fraction: string)
    requires AllDigits(whole)
    ensures PointAt(whole + "." + fraction) == |whole|
  {
    var s := whole + "." + fraction;
    assert s[|whole|] == '.';
    assert forall j | 0 <= j < |whole| :: s[j] == whole[j] && IsDigit(whole[j]);
    assert forall j | 0 <= j < |whole| :: s[j] != '.';
  }

  lemma {:induction false} TwoMoreDigits(whole: string, a: nat, b: nat)
    requires AllDigits(whole) && a < 10 && b < 10
    ensures var all := whole + [DigitOf(a), DigitOf(b)];
      AllDigits(all) && Value(all) == 100 * Value(whole) + 10 * a + b
  {
    var all := whole + [DigitOf(a), DigitOf(b)];
    var init := whole + [DigitOf(a)];
    assert all[..|all| - 1] == init && init[..|whole|] == whole;
  }

  lemma HundredsTensOnes(n: nat)
    ensures 100 * (n / 100) + 10 * (n % 100 / 10) + n % 10 == n
  {
  }

  lemma RupeesShape(amount: nat)
    ensures var whole := Digits(amount / 100);
      var fraction := [DigitOf(amount % 100 / 10), DigitOf(amount % 10)];
      && Rupees(amount) == whole + "." + fraction && AllDigits(whole) && AllDigits(fraction) && whole != ""
      && AllDigits(whole + fraction) && Value(whole + fraction) == amount
  {
    DigitsRoundTrip(amount / 100);
    DigitsAreDigits(amount / 100);
    HundredsTensOnes(amount);
    hide Digits, Value;
    TwoMoreDigits(Digits(amount / 100), amount % 100 / 10, amount % 10);
  }

  /** What `_rupees` prints, `parse_decimal_minor` reads back, up to 28 significant digits. */
  lemma {:induction false} RupeesRoundTrip(amount: nat)
    ensures ParseDecimalMinor(Rupees(amount)) == Some(Rounded(amount))
  {
    RupeesShape(amount);
    var whole, fraction := Digits(amount / 100), [DigitOf(amount % 100 / 10), DigitOf(amount % 10)];
    var s := Rupees(amount);
    hide Digits, Rupees, DigitOf, Rounded, Value;
    assert IsDigit(s[0]) && IsDigit(s[|s| - 1]) by {
      assert s[0] == whole[0] && s[|s| - 1] == fraction[1];
    }
    NothingToStrip(s);
    assert ',' !in s by {
      assert ',' !in whole && ',' !in fraction && ',' !in ".";
    }
    NoCommas(s);
    PointAfter(whole, fraction);
    assert s[..|whole|] == whole && s[|whole| + 1..] == fraction;
    hide PointAt, Strip, WithoutCommas;
    assert ParseUnsigned(s) == Some(Rounded(amount));
    hide ParseUnsigned;
    assert s[0] !in {'+', '-'};
  }

  /** The round trip is exact if and only if the amount has nothing beyond its 28th digit. */
  lemma {:induction false} RoundTripIsExact(amount: nat)
    ensures ParseDecimalMinor(Rupees(amount)) == Some(amount) <==> amount % LastPlace(amount) == 0
    ensures amount < TEN_TO_28 ==> amount % LastPlace(amount) == 0
  {
    RupeesRoundTrip(amount);
    hide Rupees, ParseDecimalMinor, LastPlace;
    assert amount < TEN_TO_28 ==> LastPlace(amount) == 1 by {
      SmallUnit(amount);
    }
    RoundedIsExact(amount);
  }

  lemma SmallUnit(n: nat)
    ensures n < TEN_TO_28 ==> LastPlace(n) == 1
  {
  }

  lemma RoundedIsExact(n: nat)
    ensures Rounded(n) == n <==> n % LastPlace(n) == 0
  {
    hide LastPlace;
    var unit := LastPlace(n);
    var q, rest := n / unit, n % unit;
    assert n == q * unit + rest;
    assert (q + 1) * unit == q * unit + unit;
  }

  lemma {:induction false} IntegerRoundTrip(n: nat)
    ensures ParseInteger(Digits(n)) == Some(n)
  {
    DigitsRoundTrip(n);
    DigitsAreDigits(n);
    var s := Digits(n);
    hide Digits, Value;
    assert IsDigit(s[0]) && IsDigit(s[|s| - 1]);
    NothingToStrip(s);
  }

  /** `q` units are nearest to `n`, and an even number of them if as many others are. */
  predicate IsNearestMultiple(n: int, unit: int, q: int) {
    -unit <= 2 * (q * unit - n) <= unit && (2 * (q * unit - n) == unit || 2 * (q * unit - n) == -unit ==> q % 2 == 0)
  }

  /** Rounding gives the nearest multiple of the last place, and of two the even one. */
  lemma RoundedIsNearest(n: nat)
    ensures exists q: int :: Rounded(n) == q * LastPlace(n) && IsNearestMultiple(n, LastPlace(n), q)
  {
    hide LastPlace;
    var unit := LastPlace(n);
    var q, rest := n / unit, n % unit;
    assert n == q * unit + rest;
    assert (q + 1) * unit == q * unit + unit;
    if Rounded(n) == q * unit && (2 * rest < unit || (2 * rest == unit && q % 2 == 0)) {
      assert IsNearestMultiple(n, unit, q);
    } else {
      assert IsNearestMultiple(n, unit, q + 1);
    }
  }

  /** The last place is one as long as 28 digits hold the number, and otherwise leaves exactly 28 of them. */
  lemma {:induction false} LastPlaceLeaves28(n: nat)
    ensures n < TEN_TO_28 ==> LastPlace(n) == 1
    ensures n >= TEN_TO_28 ==> TEN_TO_28 / 10 <= n / LastPlace(n) < TEN_TO_28
  {
    if n >= TEN_TO_28 {
      LastPlaceLeaves28(n / 10);
      NestedQuotient(n, LastPlace(n / 10));
    }
  }

  lemma NestedQuotient(n: nat, unit: nat)
    requires unit >= 1
    ensures n / (10 * unit) == n / 10 / unit
  {
    var q, r := n / 10, n % 10;
    var a, c := q / unit, q % unit;
    assert n == 10 * q + r && q == a * unit + c;
    assert n == a * (10 * unit) + (10 * c + r);
    assert 0 <= 10 * c + r < 10 * unit;
    QuotientIs(n, 10 * unit, a, 10 * c + r);
  }

  lemma QuotientIs(n: nat, d: nat, q: nat, r: nat)
    requires d >= 1 && n == q * d + r && r < d
    ensures n / d == q
  {
    var p := n / d;
    assert n == p * d + n % d;
    if p > q {
      assert p * d == q * d + (p - q) * d;
      AtLeastOnce(p - q, d);
    } else if p < q {
      assert q * d == p * d + (q - p) * d;
      AtLeastOnce(q - p, d);
    }
  }

  lemma AtLeastOnce(k: nat, d: nat)
    requires k >= 1
    ensures k * d >= d
  {
    assert k * d == d + (k - 1) * d;
  }
}
