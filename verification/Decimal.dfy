/** Money arithmetic: cents, and fractions of cents, under a decimal context of 28 significant digits. */
module Decimal {
  import opened Prelude
  import opened Json

  // Any integer of at most 28 digits is kept; LIMIT itself has one significant digit.
  const LIMIT: nat := 10_000_000_000_000_000_000_000_000_000

  function Pow10(n: nat): (p: nat)
    ensures p >= 1
  {
    if n == 0 then 1 else 10 * Pow10(n - 1)
  }

  /** Any finite decimal: digits / 10^places cents. */
  datatype Amount = Amount(digits: int, places: nat) {
    /** One cent, in units of the last place. */
    function Cent(): (c: nat)
      ensures c >= 1
    {
      Pow10(places)
    }
  }

  /** n / unit as a whole number, ties to the even one. */
  function Nearest(n: nat, unit: nat): nat
    requires unit > 0
  {
    var q, r := n / unit, n % unit;
    if 2 * r < unit || (2 * r == unit && q % 2 == 0) then q else q + 1
  }

  /** n rounded to the nearest multiple of unit, ties to the even multiple. */
  function RoundTo(n: nat, unit: nat): nat
    requires unit > 0
  {
    Nearest(n, unit) * unit
  }

  /** The smallest power of ten, from unit on, that leaves n with 28 digits. */
  function UnitFor(n: nat, unit: nat): (u: nat)
    requires unit > 0
    ensures u >= unit && n < LIMIT * u
    decreases if n < LIMIT * unit then 0 else n + 1 - LIMIT * unit
  {
    if n < LIMIT * unit then unit else UnitFor(n, 10 * unit)
  }

  /** One addition's result, kept to 28 significant digits. */
  function Round28(n: nat): nat {
    if n <= LIMIT then n else RoundTo(n, UnitFor(n, 1))
  }

  /** The running total of a loop that adds amounts one by one. */
  function DecSum(s: seq<nat>): nat {
    if s == [] then 0 else Round28(DecSum(s[..|s| - 1]) + s[|s| - 1])
  }

  lemma UnitForAbove(n: nat, unit: nat)
    requires unit > 0 && n >= LIMIT * unit
    ensures var u := UnitFor(n, unit); u % 10 == 0 && n >= LIMIT / 10 * u
    decreases if n < LIMIT * unit then 0 else n + 1 - LIMIT * unit
  {
    if n >= LIMIT * (10 * unit) {
      UnitForAbove(n, 10 * unit);
    }
  }

  lemma LessByFactor(a: int, b: int, u: nat)
    requires a * u < b * u
    ensures a < b
  {
  }

  lemma TenOrMore(q: nat, u: nat)
    requires u >= 10
    ensures q * u >= 10 * q
  {
    assert q * u == q * (u - 10) + 10 * q;
  }

  lemma Round28Above(n: nat)
    requires n > LIMIT
    ensures Round28(n) >= LIMIT
  {
    UnitForAbove(n, 1);
    var u := UnitFor(n, 1);
    var q := n / u;
    assert q * u <= n < q * u + u && (q + 1) * u == q * u + u;
    LessByFactor(LIMIT / 10, q + 1, u);
    TenOrMore(q, u);
    TenOrMore(q + 1, u);
  }

  /** Sums stay exact up to LIMIT, and past it the rounded total never drops below it. */
  lemma {:induction false} DecSumExact(s: seq<nat>)
    ensures Sum(s) <= LIMIT ==> DecSum(s) == Sum(s)
    ensures Sum(s) >= LIMIT ==> DecSum(s) >= LIMIT
  {
    if s != [] {
      var n := |s| - 1;
      DecSumExact(s[..n]);
      var t := DecSum(s[..n]) + s[n];
      if t > LIMIT {
        Round28Above(t);
      }
    }
  }

  lemma Round28JustAbove()
    ensures Round28(LIMIT + 1) == LIMIT
  {
    assert UnitFor(LIMIT + 1, 10) == 10;
    assert UnitFor(LIMIT + 1, 1) == 10;
  }

  /** Below LIMIT, comparing rounded totals is comparing the true totals. */
  lemma BalancedBelowLimit(ins: seq<nat>, outs: seq<nat>, fee: nat)
    requires Sum(ins) < LIMIT
    ensures DecSum(ins) == Round28(DecSum(outs) + fee) <==> Sum(ins) == Sum(outs) + fee
  {
    DecSumExact(ins);
    DecSumExact(outs);
    if DecSum(outs) + fee > LIMIT {
      Round28Above(DecSum(outs) + fee);
    }
  }

  lemma EqualTotalsBelowLimit(ins: seq<nat>, outs: seq<nat>)
    requires Sum(ins) < LIMIT
    ensures DecSum(ins) == DecSum(outs) <==> Sum(ins) == Sum(outs)
  {
    DecSumExact(ins);
    DecSumExact(outs);
  }

  lemma {:induction false} SumOfCopies(n: nat, a: nat)
    ensures Sum(seq(n, _ => a)) == n * a
  {
    if n > 0 {
      SumOfCopies(n - 1, a);
      assert seq(n, _ => a)[..n - 1] == seq(n - 1, _ => a);
    }
  }

  lemma {:induction false} SumBound(s: seq<nat>, m: nat)
    requires forall i :: 0 <= i < |s| ==> s[i] <= m
    ensures Sum(s) <= |s| * m
  {
    if s != [] {
      SumBound(s[..|s| - 1], m);
    }
  }

  ghost predicate AtMost(s: seq<nat>, m: nat) {
    |s| <= 100 && forall i :: 0 <= i < |s| ==> s[i] <= m
  }

  lemma HundredBound(s: seq<nat>, m: nat)
    requires AtMost(s, m)
    ensures Sum(s) <= 100 * m
  {
    SumBound(s, m);
    ScaleUp(|s|, 100, m);
  }

  lemma ScaleUp(a: nat, b: nat, m: nat)
    requires a <= b
    ensures a * m <= b * m
  {
  }

  lemma WithinHundredIsExact(s: seq<nat>, m: nat)
    requires AtMost(s, m) && 100 * m <= LIMIT
    ensures DecSum(s) == Sum(s)
  {
    HundredBound(s, m);
    DecSumExact(s);
  }

  /** A hundred amounts, one of them a cent above 10^26, that are summed one cent short. */
  lemma HundredFirstLoss() returns (s: seq<nat>)
    ensures AtMost(s, LIMIT / 100 + 1) && Sum(s) == LIMIT + 1 && DecSum(s) == LIMIT
  {
    var a := LIMIT / 100;
    var front: seq<nat> := seq(99, _ => a);
    s := front + [a + 1];
    SumOfCopies(99, a);
    DecSumExact(front);
    Round28JustAbove();
    assert s[..99] == front;
  }

  /** A sum of up to 100 amounts of at most m cents is exact for every choice, if and only if m <= 10^26. */
  lemma {:induction false} HundredExactIff(m: nat)
    ensures (forall s: seq<nat> :: AtMost(s, m) ==> DecSum(s) == Sum(s)) <==> 100 * m <= LIMIT
  {
    if 100 * m <= LIMIT {
      forall s: seq<nat> | AtMost(s, m) ensures DecSum(s) == Sum(s) {
        WithinHundredIsExact(s, m);
      }
    } else {
      var s := HundredFirstLoss();
      assert AtMost(s, m) && DecSum(s) != Sum(s);
    }
  }

  /** n / unit, the rest cut off. */
  function CutTo(n: nat, unit: nat): (q: nat)
    requires unit > 0
    ensures q == 0 <==> n < unit
  {
    n / unit
  }

  /** Parsed amount in cents: positivity is checked first, then digits past the cent are cut off;
      a result of more than 28 digits is refused. */
  function ToCents(a: Amount): Result<nat, string> {
    if a.digits <= 0 then Err("amount must be positive")
    else
      var cents := CutTo(a.digits, a.Cent());
      if cents >= LIMIT then Err("too many digits") else Ok(cents)
  }

  /** A positive amount is accepted as nothing exactly when it is below one cent. */
  lemma ZeroCentsIff(a: Amount)
    ensures ToCents(a) == Ok(0) <==> 0 < a.digits < a.Cent()
  {
  }

  /** The amounts a request can carry, in cents, are exactly those of at most 28 digits. */
  lemma {:induction false} ParsedIffBelowLimit(n: nat)
    ensures (exists a :: ToCents(a) == Ok(n)) <==> n < LIMIT
  {
    if n < LIMIT {
      var a := Amount(if n == 0 then 1 else n, if n == 0 then 1 else 0);
      assert Pow10(0) == 1 && Pow10(1) == 10;
      assert ToCents(a) == Ok(n);
    }
  }

  // ---------- stored text ----------

  /** An amount in cents as text with two decimal places. */
  function CentsText(n: nat): string {
    NatText(n / 100) + "." + [Digit(n / 10 % 10), Digit(n % 10)]
  }

  function ParseCents(t: string): Option<nat> {
    if |t| >= 4 && t[|t| - 3] == '.' && IsDigit(t[|t| - 2]) && IsDigit(t[|t| - 1])
       && forall i :: 0 <= i < |t| - 3 ==> IsDigit(t[i])
    then Some(100 * ParseNat(t[..|t| - 3]) + 10 * DigitValue(t[|t| - 2]) + DigitValue(t[|t| - 1]))
    else None
  }

  /** Storing an amount as text and reading it back returns the same cents. */
  lemma CentsRoundTrip(n: nat)
    ensures ParseCents(CentsText(n)) == Some(n)
  {
    var t, whole := CentsText(n), NatText(n / 100);
    assert t[..|t| - 3] == whole;
    ParseNatOfText(n / 100);
    assert n == 100 * (n / 100) + 10 * (n / 10 % 10) + n % 10;
  }

  lemma CentsTextInjective(n: nat, m: nat)
    requires CentsText(n) == CentsText(m)
    ensures n == m
  {
    CentsRoundTrip(n);
    CentsRoundTrip(m);
  }
}
