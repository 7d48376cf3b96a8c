/**
 Normalising decimal amounts to seven places: parsing, rounding half up to whole stroops, printing.
 Amounts are unsigned decimal strings; one unit is 10,000,000 stroops.
 */
module Amounts {
  import opened Option

  const PLACES: nat := 7
  const STROOPS_PER_UNIT: nat := 10_000_000
  /** `decimal`'s default context refuses a quantised coefficient of more than 28 digits. */
  const PRECISION_LIMIT: nat := 10_000_000_000_000_000_000_000_000_000

  function Pow10(k: nat): (p: nat)
    ensures p > 0
  {
    if k == 0 then 1 else 10 * Pow10(k - 1)
  }

  // ---------- digits ----------

  predicate IsDigit(c: char) { '0' <= c <= '9' }

  predicate AllDigits(s: string) { forall i :: 0 <= i < |s| ==> IsDigit(s[i]) }

  function DigitChar(d: nat): (c: char)
    requires d < 10
    ensures IsDigit(c) && DigitValue(c) == d
  {
    "0123456789"[d]
  }

  function DigitValue(c: char): (d: nat)
    requires IsDigit(c)
    ensures d < 10
  {
    c as int - '0' as int
  }

  function Value(s: string): nat
    requires AllDigits(s)
  {
    if s == [] then 0 else 10 * Value(s[..|s| - 1]) + DigitValue(s[|s| - 1])
  }

  /** Without leading zeros. */
  function Digits(n: nat): (s: string)
    ensures AllDigits(s) && s != [] && Value(s) == n && (|s| > 1 ==> s[0] != '0') && (n > 0 ==> s[0] != '0')
  {
    if n < 10 then [DigitChar(n)]
    else
      var s := Digits(n / 10) + [DigitChar(n % 10)];
      assert s[..|s| - 1] == Digits(n / 10);
      s
  }

  /** The last `k` digits of `n`, with leading zeros. */
  function Padded(n: nat, k: nat): (s: string)
    ensures AllDigits(s) && |s| == k
    ensures n < Pow10(k) ==> Value(s) == n
  {
    if k == 0 then []
    else
      var s := Padded(n / 10, k - 1) + [DigitChar(n % 10)];
      assert s[..|s| - 1] == Padded(n / 10, k - 1);
      s
  }

  lemma ShiftIn(v: nat, p: nat, w: nat, d: nat)
    ensures 10 * (v * p + w) + d == v * (10 * p) + (10 * w + d)
  {
  }

  lemma {:induction false} ValueAppend(a: string, b: string)
    requires AllDigits(a) && AllDigits(b)
    ensures AllDigits(a + b) && Value(a + b) == Value(a) * Pow10(|b|) + Value(b)
    decreases |b|
  {
    if b == [] {
      assert a + b == a;
    } else {
      var b' := b[..|b| - 1];
      assert (a + b)[..|a + b| - 1] == a + b';
      ValueAppend(a, b');
      ShiftIn(Value(a), Pow10(|b'|), Value(b'), DigitValue(b[|b| - 1]));
    }
  }

  // ---------- parsing, rounding, printing ----------

  /** `coefficient` / 10^`scale`. */
  datatype Decimal = Decimal(coefficient: nat, scale: nat)

  function DotAt(s: string): (n: nat)
    ensures n <= |s|
    ensures n < |s| ==> s[n] == '.'
    ensures forall i :: 0 <= i < n ==> s[i] != '.'
  {
    if s == [] || s[0] == '.' then 0 else 1 + DotAt(s[1..])
  }

  function FromParts(whole: string, fraction: string): Option<Decimal> {
    if AllDigits(whole) && AllDigits(fraction) && |whole| + |fraction| > 0
    then Some(Decimal(Value(whole + fraction), |fraction|))
    else None
  }

  function Parse(s: string): Option<Decimal> {
    var n := DotAt(s);
    FromParts(s[..n], if n < |s| then s[n + 1..] else [])
  }

  /** The whole part of x / y. */
  function Quotient(x: nat, y: nat): (q: nat)
    requires y > 0
    ensures q * y <= x < q * y + y
  {
    if x < y then 0 else 1 + Quotient(x - y, y)
  }

  /** Rounds half up to whole stroops. */
  function Quantize(d: Decimal): nat {
    if d.scale <= PLACES then d.coefficient * Pow10(PLACES - d.scale)
    else Quotient(2 * d.coefficient + Pow10(d.scale - PLACES), 2 * Pow10(d.scale - PLACES))
  }

  function PrintParts(whole: nat, fraction: nat, places: nat): string {
    Digits(whole) + "." + Padded(fraction, places)
  }

  function Print(stroops: nat): string {
    PrintParts(stroops / STROOPS_PER_UNIT, stroops % STROOPS_PER_UNIT, PLACES)
  }

  /** `normalize_amount`; `None` when `decimal` raises `InvalidOperation`. */
  function Normalize(s: string): Option<string> {
    var d := Parse(s);
    if d.None? || Quantize(d.value) >= PRECISION_LIMIT then None else Some(Print(Quantize(d.value)))
  }

  /** The request grammar: digits, then at most seven decimals. */
  predicate Accepted(s: string) {
    var n := DotAt(s);
    n > 0 && AllDigits(s[..n]) && (n < |s| ==> AllDigits(s[n + 1..]) && 1 <= |s[n + 1..]| <= PLACES)
  }

  // ---------- main results ----------

  lemma DotAfter(whole: string, fraction: string)
    requires AllDigits(whole)
    ensures var s := whole + "." + fraction;
            DotAt(s) == |whole| && s[..|whole|] == whole && s[|whole| + 1..] == fraction
  {
    var s := whole + "." + fraction;
    assert forall i :: 0 <= i < |whole| ==> s[i] == whole[i];
    assert s[|whole|] == '.';
  }

  lemma ParseJoined(whole: string, fraction: string)
    requires AllDigits(whole)
    ensures Parse(whole + "." + fraction) == FromParts(whole, fraction)
  {
    DotAfter(whole, fraction);
  }

  lemma PartsValue(whole: string, fraction: string)
    requires AllDigits(whole) && AllDigits(fraction) && whole != []
    ensures FromParts(whole, fraction) == Some(Decimal(Value(whole) * Pow10(|fraction|) + Value(fraction), |fraction|))
  {
    ValueAppend(whole, fraction);
  }

  lemma ParseParts(whole: string, fraction: string, w: nat, f: nat, power: nat, n: nat)
    requires AllDigits(whole) && AllDigits(fraction) && whole != []
    requires Value(whole) == w && Value(fraction) == f && Pow10(|fraction|) == power && n == w * power + f
    ensures Parse(whole + "." + fraction) == Some(Decimal(n, |fraction|))
  {
    ParseJoined(whole, fraction);
    PartsValue(whole, fraction);
  }

  /** The text has one point, with `whole` before it and `fraction` after. */
  predicate SplitAtPoint(s: string, whole: string, fraction: string) {
    s == whole + "." + fraction && AllDigits(whole) && AllDigits(fraction) && (whole != [] || fraction != [])
  }

  lemma Cut(s: string, n: nat)
    requires n < |s| && s[n] == '.'
    ensures s == s[..n] + "." + s[n + 1..]
  {
    assert s[n..] == "." + s[n + 1..];
    assert s == s[..n] + s[n..];
  }

  lemma DotInside(s: string, n: nat)
    requires n < |s| && s[n] == '.'
    ensures !AllDigits(s)
  {
    assert !IsDigit(s[n]);
  }

  /**
   What counts as a number, and which: digits stand for their value, and digits around one point, of
   which one side may be missing, for the value of all of them divided by ten to the number of decimals.
   */
  lemma ParseExactly(s: string, d: Decimal)
    ensures Parse(s) == Some(d) <==>
            || (s != [] && AllDigits(s) && d == Decimal(Value(s), 0))
            || exists whole, fraction :: SplitAtPoint(s, whole, fraction) && d == Decimal(Value(whole + fraction), |fraction|)
  {
    var n := DotAt(s);
    if n == |s| {
      assert s[..n] == s && s + [] == s;
      forall whole, fraction | SplitAtPoint(s, whole, fraction) ensures false {
        DotAfter(whole, fraction);
      }
    } else {
      Cut(s, n);
      DotInside(s, n);
      forall whole, fraction | SplitAtPoint(s, whole, fraction) ensures whole == s[..n] && fraction == s[n + 1..] {
        DotAfter(whole, fraction);
      }
      if Parse(s).Some? {
        assert SplitAtPoint(s, s[..n], s[n + 1..]);
      }
    }
  }

  /** The request grammar, as a grammar. */
  lemma AcceptedIsGrammar(s: string)
    ensures Accepted(s) <==>
            || (s != [] && AllDigits(s))
            || exists whole, fraction :: SplitAtPoint(s, whole, fraction) && whole != [] && 1 <= |fraction| <= 7
  {
    var n := DotAt(s);
    if n == |s| {
      assert s[..n] == s;
      forall whole, fraction | SplitAtPoint(s, whole, fraction) ensures false {
        DotAfter(whole, fraction);
      }
    } else {
      Cut(s, n);
      DotInside(s, n);
      forall whole, fraction | SplitAtPoint(s, whole, fraction) ensures whole == s[..n] && fraction == s[n + 1..] {
        DotAfter(whole, fraction);
      }
      if Accepted(s) {
        assert SplitAtPoint(s, s[..n], s[n + 1..]);
      }
    }
  }

  predicate NoLeadingZero(s: string) { |s| > 1 ==> s[0] != '0' }

  /** How a number of stroops is written: the whole units without leading zeros, a point, and seven decimals. */
  lemma PrintForm(n: nat)
    ensures exists whole, fraction ::
              && SplitAtPoint(Print(n), whole, fraction) && whole != [] && NoLeadingZero(whole) && |fraction| == 7
              && Value(whole) == n / 10_000_000 && Value(fraction) == n % 10_000_000
  {
    SevenPlaces();
    var whole, fraction := Digits(n / STROOPS_PER_UNIT), Padded(n % STROOPS_PER_UNIT, PLACES);
    assert SplitAtPoint(Print(n), whole, fraction);
  }

  lemma SevenPlaces()
    ensures Pow10(PLACES) == STROOPS_PER_UNIT && Pow10(0) == 1
  {
  }

  lemma ParsePrintStroops(n: nat, whole: nat, fraction: nat)
    requires n == whole * STROOPS_PER_UNIT + fraction && fraction < STROOPS_PER_UNIT
    ensures Parse(PrintParts(whole, fraction, PLACES)) == Some(Decimal(n, PLACES))
  {
    SevenPlaces();
    var digits, padded := Digits(whole), Padded(fraction, PLACES);
    ParseParts(digits, padded, whole, fraction, STROOPS_PER_UNIT, n);
    assert PrintParts(whole, fraction, PLACES) == digits + "." + padded;
  }

  /** Printing then parsing any stroop count is the identity. */
  lemma ParsePrint(n: nat)
    ensures Parse(Print(n)) == Some(Decimal(n, PLACES))
  {
    ParsePrintStroops(n, n / STROOPS_PER_UNIT, n % STROOPS_PER_UNIT);
  }

  lemma PrintInjective(m: nat, n: nat)
    requires Print(m) == Print(n)
    ensures m == n
  {
    ParsePrint(m);
    ParsePrint(n);
  }

  lemma NormalizePrint(n: nat)
    ensures Normalize(Print(n)) == if n < PRECISION_LIMIT then Some(Print(n)) else None
  {
    ParsePrint(n);
    SevenPlaces();
  }

  /** A normalised amount is its own normal form. */
  lemma NormalizeIdempotent(s: string)
    ensures Normalize(s).Some? ==> Normalize(Normalize(s).value) == Normalize(s)
  {
    if Normalize(s).Some? {
      NormalizePrint(Quantize(Parse(s).value));
    }
  }

  lemma {:induction false} Pow10Add(a: nat, b: nat)
    ensures Pow10(a + b) == Pow10(a) * Pow10(b)
  {
    if a > 0 {
      Pow10Add(a - 1, b);
      assert Pow10(a + b) == 10 * Pow10(a - 1 + b);
      assert 10 * (Pow10(a - 1) * Pow10(b)) == (10 * Pow10(a - 1)) * Pow10(b);
    }
  }

  /** `n` stroops is the value nearest to `d`, and the larger one of two equally near. */
  predicate NearestTiesUp(d: Decimal, n: int) {
    var exact: int, unit: int := d.coefficient * STROOPS_PER_UNIT, Pow10(d.scale);
    -unit < 2 * (n * unit - exact) <= unit
  }

  lemma RoundingQuotient(c: nat, u: nat)
    requires u > 0
    ensures var n: int := Quotient(2 * c + u, 2 * u); -(u as int) < 2 * (n * u - c) <= u
  {
    var n := Quotient(2 * c + u, 2 * u);
    assert n * (2 * u) == 2 * (n * u);
  }

  /** An amount with at most seven decimals loses nothing. */
  lemma ExactUpToSevenPlaces(d: Decimal)
    requires d.scale <= PLACES
    ensures Quantize(d) * Pow10(d.scale) == d.coefficient * STROOPS_PER_UNIT
  {
    Pow10Add(PLACES - d.scale, d.scale);
    SevenPlaces();
    Associate(d.coefficient, Pow10(PLACES - d.scale), Pow10(d.scale));
  }

  lemma Associate(a: int, b: int, c: int)
    ensures a * b * c == a * (b * c)
  {
  }

  lemma QuantizeNearest(d: Decimal)
    ensures NearestTiesUp(d, Quantize(d))
  {
    if d.scale <= PLACES {
      ExactUpToSevenPlaces(d);
    } else {
      var u, n := Pow10(d.scale - PLACES), Quantize(d);
      RoundingQuotient(d.coefficient, u);
      Pow10Add(d.scale - PLACES, PLACES);
      SevenPlaces();
      Associate(n, u, STROOPS_PER_UNIT);
      assert n * Pow10(d.scale) == n * u * STROOPS_PER_UNIT;
    }
  }

  lemma Spread(m: int, n: int, unit: int)
    requires m > n && unit > 0
    ensures m * unit >= n * unit + unit
  {
    var k := m - n;
    assert (n + k) * unit == n * unit + k * unit;
    AtLeastOne(k, unit);
  }

  lemma AtLeastOne(k: int, unit: int)
    requires k >= 1 && unit > 0
    ensures k * unit >= unit
  {
  }

  lemma NearestUnique(d: Decimal, m: int, n: int)
    requires NearestTiesUp(d, m) && NearestTiesUp(d, n)
    ensures m == n
  {
    if m > n {
      Spread(m, n, Pow10(d.scale));
    } else if m < n {
      Spread(n, m, Pow10(d.scale));
    }
  }

  /** Normalising is rounding to the nearest stroop, ties up, and nothing else. */
  lemma NormalizeIsNearest(s: string, n: nat)
    requires Parse(s).Some? && n < PRECISION_LIMIT
    ensures Normalize(s) == Some(Print(n)) <==> NearestTiesUp(Parse(s).value, n)
  {
    var d := Parse(s).value;
    QuantizeNearest(d);
    if Normalize(s) == Some(Print(n)) {
      PrintInjective(Quantize(d), n);
    }
    if NearestTiesUp(d, n) {
      NearestUnique(d, Quantize(d), n);
    }
  }

  lemma AcceptedParses(s: string)
    requires Accepted(s)
    ensures Parse(s).Some? && Parse(s).value.scale <= PLACES
  {
  }

  predicate SameValue(d: Decimal, e: Decimal) {
    d.coefficient * Pow10(e.scale) == e.coefficient * Pow10(d.scale)
  }

  /** On the accepted grammar normalising changes how an amount is written, never its value. */
  lemma AcceptedKeepsValue(s: string)
    requires Accepted(s)
    ensures Parse(s).Some?
    ensures Normalize(s).Some? ==>
              Parse(Normalize(s).value).Some? && SameValue(Parse(s).value, Parse(Normalize(s).value).value)
  {
    AcceptedParses(s);
    ExactUpToSevenPlaces(Parse(s).value);
    ParsePrint(Quantize(Parse(s).value));
    SevenPlaces();
  }

  lemma StroopsDecide(m: nat, n: nat, c: nat, e: nat, p: nat, q: nat)
    requires p > 0 && q > 0 && m * p == c * STROOPS_PER_UNIT && n * q == e * STROOPS_PER_UNIT
    ensures m == n <==> c * q == e * p
  {
    Associate(m, p, q);
    Associate(n, q, p);
    assert (c * STROOPS_PER_UNIT) * q == (c * q) * STROOPS_PER_UNIT;
    assert (e * STROOPS_PER_UNIT) * p == (e * p) * STROOPS_PER_UNIT;
    assert p * q == q * p > 0;
    if m > n {
      Spread(m, n, p * q);
    } else if m < n {
      Spread(n, m, p * q);
    }
  }

  /** Two accepted amounts normalise alike exactly when they are the same number. */
  lemma NormalizeDecidesEquality(s: string, t: string)
    requires Accepted(s) && Accepted(t)
    ensures Parse(s).Some? && Parse(t).Some?
    ensures Normalize(s).Some? && Normalize(t).Some? ==>
              (Normalize(s) == Normalize(t) <==> SameValue(Parse(s).value, Parse(t).value))
  {
    AcceptedParses(s);
    AcceptedParses(t);
    var d, e := Parse(s).value, Parse(t).value;
    ExactUpToSevenPlaces(d);
    ExactUpToSevenPlaces(e);
    StroopsDecide(Quantize(d), Quantize(e), d.coefficient, e.coefficient, Pow10(d.scale), Pow10(e.scale));
    if Normalize(s).Some? && Normalize(s) == Normalize(t) {
      PrintInjective(Quantize(d), Quantize(e));
    }
  }
}
