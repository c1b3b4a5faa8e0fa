/** How rounding to 28 digits and rounding to a cent act on each other. */
module Rounding {
  import opened Prelude
  import opened Decimal

  lemma {:induction false} Pow10Add(a: nat, b: nat)
    ensures Pow10(a + b) == Pow10(a) * Pow10(b)
  {
    if a > 0 {
      Pow10Add(a - 1, b);
    }
  }

  lemma NextMultiple(a: int, b: int, u: nat)
    ensures a < b ==> a * u + u <= b * u
  {
    assert (a + 1) * u == a * u + u;
    assert a < b ==> (a + 1) * u <= b * u;
  }

  lemma Division(n: nat, u: nat)
    requires u > 0
    ensures n / u * u <= n < n / u * u + u && n % u == n - n / u * u
  {
  }

  lemma DivMod(n: nat, q: nat, r: nat, u: nat)
    requires r < u && n == q * u + r
    ensures n / u == q && n % u == r
  {
    Division(n, u);
    NextMultiple(q, n / u, u);
    NextMultiple(n / u, q, u);
  }

  /** A request amount is read as its whole cents, the largest number of cents it covers, if these have at most 28 digits. */
  lemma ToCentsIff(a: Amount, cents: nat)
    ensures ToCents(a) == Ok(cents) <==>
            && a.digits > 0 && cents < 10_000_000_000_000_000_000_000_000_000
            && cents * a.Cent() <= a.digits < cents * a.Cent() + a.Cent()
  {
    if a.digits > 0 {
      Division(a.digits, a.Cent());
      NextMultiple(cents, a.digits / a.Cent(), a.Cent());
      NextMultiple(a.digits / a.Cent(), cents, a.Cent());
    }
  }

  // ---------- rounding to a unit ----------

  lemma NearestAtMost(n: nat, m: nat, u: nat)
    requires u > 0 && n <= m * u
    ensures Nearest(n, u) <= m
  {
    Division(n, u);
    NextMultiple(m, n / u, u);
  }

  lemma NearestAtLeast(n: nat, m: nat, u: nat)
    requires u > 0 && n >= m * u
    ensures Nearest(n, u) >= m
  {
    Division(n, u);
    NextMultiple(n / u, m, u);
  }

  lemma Times(a: nat, b: nat, u: nat)
    requires a <= b
    ensures a * u <= b * u
  {
  }

  lemma RoundToAtMost(n: nat, m: nat, u: nat)
    requires u > 0 && n <= m * u
    ensures RoundTo(n, u) <= m * u
  {
    NearestAtMost(n, m, u);
    Times(Nearest(n, u), m, u);
  }

  lemma RoundToAtLeast(n: nat, m: nat, u: nat)
    requires u > 0 && n >= m * u
    ensures RoundTo(n, u) >= m * u
  {
    NearestAtLeast(n, m, u);
    Times(m, Nearest(n, u), u);
  }

  lemma RoundToNear(n: nat, u: nat)
    requires u > 0
    ensures 2 * (RoundTo(n, u) - n) <= u && 2 * (n - RoundTo(n, u)) <= u
  {
    Division(n, u);
    assert (n / u + 1) * u == n / u * u + u;
  }

  /** Within half a unit, or exactly half a unit from an even multiple. */
  predicate IsNearest(n: int, q: int, qu: int, u: int) {
    (2 * (n - qu) < u && 2 * (qu - n) < u) || ((2 * (n - qu) == u || 2 * (qu - n) == u) && q % 2 == 0)
  }

  lemma NearestByCases(n: int, m: int, mu: int, q: int, qu: int, u: int)
    requires u > 0 && mu <= n < mu + u
    requires q == m ==> qu == mu
    requires q == m + 1 ==> qu == mu + u
    requires q < m ==> qu <= mu - u
    requires q > m + 1 ==> qu >= mu + 2 * u
    ensures q == (if 2 * (n - mu) < u || (2 * (n - mu) == u && m % 2 == 0) then m else m + 1) <==> IsNearest(n, q, qu, u)
  {
  }

  /** Rounding to the nearest multiple, ties to the even one, and nothing else. */
  lemma NearestIff(n: nat, q: nat, u: nat)
    requires u > 0
    ensures q == Nearest(n, u) <==> IsNearest(n, q, q * u, u)
  {
    var m := n / u;
    Division(n, u);
    NextMultiple(q, m, u);
    NextMultiple(m, q, u);
    NextMultiple(m + 1, q, u);
    NextMultiple(m, m + 1, u);
    NextMultiple(q, m + 1, u);
    NearestByCases(n, m, m * u, q, q * u, u);
  }

  // ---------- rounding to 28 digits ----------

  lemma {:induction false} UnitExponent(n: nat, i: nat) returns (j: nat)
    ensures j >= i && UnitFor(n, Pow10(i)) == Pow10(j) && n < LIMIT * Pow10(j)
    ensures j > i ==> n >= LIMIT * Pow10(j - 1)
    decreases if n < LIMIT * Pow10(i) then 0 else n + 1 - LIMIT * Pow10(i)
  {
    if n < LIMIT * Pow10(i) {
      j := i;
    } else {
      assert Pow10(i + 1) == 10 * Pow10(i);
      j := UnitExponent(n, i + 1);
    }
  }

  lemma OneExponent(n: nat, j: nat, k: nat)
    requires n < LIMIT * Pow10(j) && (k > 0 ==> n >= LIMIT * Pow10(k - 1))
    ensures k <= j
  {
    if j < k {
      Pow10Grows(j, k - 1);
    }
  }

  /** Rounding to 28 digits rounds to the power of ten that leaves at most 28 of them. */
  lemma Round28Is(n: nat, j: nat)
    requires n < LIMIT * Pow10(j) && (j > 0 ==> n >= LIMIT * Pow10(j - 1))
    ensures Round28(n) == RoundTo(n, Pow10(j))
  {
    assert Pow10(0) == 1 && Pow10(1) == 10;
    var k := UnitExponent(n, 0);
    OneExponent(n, j, k);
    OneExponent(n, k, j);
  }

  /** Rounding to 28 digits is rounding to the unit 10^j, which is 1 for numbers that need none. */
  lemma Rounded(n: nat) returns (j: nat)
    ensures Round28(n) == RoundTo(n, Pow10(j)) && n <= LIMIT * Pow10(j)
    ensures n > LIMIT ==> UnitFor(n, 1) == Pow10(j)
    ensures j > 0 ==> n >= LIMIT * Pow10(j - 1)
  {
    if n <= LIMIT {
      j := 0;
      assert Pow10(0) == 1;
    } else {
      assert Pow10(0) == 1;
      j := UnitExponent(n, 0);
    }
  }

  lemma Finer(m: nat, j: nat, k: nat) returns (c: nat)
    requires j <= k
    ensures m * Pow10(k) == c * Pow10(j) && c == m * Pow10(k - j)
  {
    Pow10Add(k - j, j);
    c := m * Pow10(k - j);
    assert m * (Pow10(k - j) * Pow10(j)) == c * Pow10(j);
  }

  lemma Pow10Grows(a: nat, b: nat)
    requires a <= b
    ensures Pow10(a) <= Pow10(b)
  {
    Pow10Add(b - a, a);
    Times(1, Pow10(b - a), Pow10(a));
  }

  /** Where the unit exceeds 10^k, the number is at least 10^28 * 10^k and stays there. */
  lemma CoarseIsLarge(n: nat, j: nat, k: nat)
    requires k < j && n >= LIMIT * Pow10(j - 1)
    ensures n >= LIMIT * Pow10(k) && RoundTo(n, Pow10(j)) >= LIMIT * Pow10(k)
  {
    Pow10Grows(k, j - 1);
    assert LIMIT * Pow10(j - 1) >= LIMIT * Pow10(k);
    assert LIMIT * Pow10(j - 1) == LIMIT / 10 * Pow10(j);
    RoundToAtLeast(n, LIMIT / 10, Pow10(j));
  }

  /** A number of at most 28 digits is a barrier rounding does not cross upwards. */
  lemma Round28AtMost(n: nat, m: nat, k: nat)
    requires m <= LIMIT && n <= m * Pow10(k)
    ensures Round28(n) <= m * Pow10(k)
  {
    var j := Rounded(n);
    if j <= k {
      var c := Finer(m, j, k);
      RoundToAtMost(n, c, Pow10(j));
    } else {
      Pow10Grows(k, j - 1);
      Times(m, LIMIT, Pow10(k));
      assert LIMIT * Pow10(k) <= LIMIT * Pow10(j - 1);
      assert LIMIT * Pow10(j - 1) == LIMIT / 10 * Pow10(j);
      RoundToAtMost(n, LIMIT / 10, Pow10(j));
    }
  }

  /** Nor downwards. */
  lemma Round28AtLeast(n: nat, m: nat, k: nat)
    requires m <= LIMIT && n >= m * Pow10(k)
    ensures Round28(n) >= m * Pow10(k)
  {
    var j := Rounded(n);
    if j <= k {
      var c := Finer(m, j, k);
      RoundToAtLeast(n, c, Pow10(j));
    } else {
      CoarseIsLarge(n, j, k);
      Times(m, LIMIT, Pow10(k));
    }
  }

  /** A rounded number is left alone by rounding again. */
  lemma Round28Stays(n: nat)
    ensures Round28(Round28(n)) == Round28(n)
  {
    var j := Rounded(n);
    var m := Nearest(n, Pow10(j));
    NearestAtMost(n, LIMIT, Pow10(j));
    Round28AtMost(Round28(n), m, j);
    Round28AtLeast(Round28(n), m, j);
  }

  lemma DecSumStays(s: seq<nat>)
    ensures Round28(DecSum(s)) == DecSum(s)
  {
    if s != [] {
      Round28Stays(DecSum(s[..|s| - 1]) + s[|s| - 1]);
    }
  }

  // ---------- rounding twice ----------

  /** n lies half way between two cents. */
  predicate Half(n: nat, cent: nat)
    requires cent > 0
  {
    2 * (n % cent) == cent
  }

  /** n and its rounding r, both within the cent that starts at q * cent and on the same side of its middle. */
  ghost predicate SameSide(n: nat, r: nat, q: nat, cent: nat) {
    && q * cent <= n < q * cent + cent && q * cent <= r <= q * cent + cent
    && (2 * (n - q * cent) <= cent ==> 2 * (r - q * cent) <= cent)
    && (2 * (n - q * cent) >= cent ==> 2 * (r - q * cent) >= cent)
  }

  lemma NearestOf(n: nat, q: nat, cent: nat)
    requires cent > 0 && q * cent <= n < q * cent + cent
    ensures Half(n, cent) <==> 2 * (n - q * cent) == cent
    ensures 2 * (n - q * cent) < cent ==> Nearest(n, cent) == q
    ensures 2 * (n - q * cent) > cent ==> Nearest(n, cent) == q + 1
  {
    DivMod(n, q, n - q * cent, cent);
  }

  lemma NextCent(q: nat, cent: nat)
    requires cent > 0
    ensures !Half(q * cent + cent, cent) && Nearest(q * cent + cent, cent) == q + 1
  {
    DivMod(q * cent + cent, q + 1, 0, cent);
  }

  lemma SameCent(n: nat, r: nat, q: nat, cent: nat)
    requires cent > 0 && SameSide(n, r, q, cent)
    ensures Half(n, cent) ==> r == n
    ensures !Half(r, cent) ==> Nearest(r, cent) == Nearest(n, cent)
  {
    NearestOf(n, q, cent);
    if r < q * cent + cent {
      NearestOf(r, q, cent);
    } else {
      NextCent(q, cent);
    }
  }

  lemma CentBelow(n: nat, cent: nat) returns (q: nat)
    requires cent > 0
    ensures q * cent <= n < q * cent + cent
  {
    Division(n, cent);
    q := n / cent;
  }

  lemma FineIsNear(n: nat, j: nat, k: nat)
    requires j < k
    ensures 2 * (RoundTo(n, Pow10(j)) - n) < Pow10(k) && 2 * (n - RoundTo(n, Pow10(j))) < Pow10(k)
  {
    RoundToNear(n, Pow10(j));
    Pow10Grows(j, k - 1);
    assert Pow10(k) == 10 * Pow10(k - 1);
  }

  /** Rounding to 28 digits and then to a cent, when the unit of the first is finer than a cent. */
  lemma FineThenCent(n: nat, j: nat, k: nat)
    requires j < k
    ensures Half(n, Pow10(k)) ==> RoundTo(n, Pow10(j)) == n
    ensures !Half(RoundTo(n, Pow10(j)), Pow10(k)) ==> Nearest(RoundTo(n, Pow10(j)), Pow10(k)) == Nearest(n, Pow10(k))
  {
    var q := CentBelow(n, Pow10(k));
    Barriers(n, q, j, k);
    SameCent(n, RoundTo(n, Pow10(j)), q, Pow10(k));
  }

  lemma Middle(q: nat, k: nat)
    requires k > 0
    ensures 2 * ((10 * q + 5) * Pow10(k - 1)) == 2 * (q * Pow10(k)) + Pow10(k)
    ensures (q + 1) * Pow10(k) == q * Pow10(k) + Pow10(k)
  {
    var p := Pow10(k - 1);
    assert Pow10(k) == 10 * p;
    assert (10 * q + 5) * p == 10 * (q * p) + 5 * p;
    assert q * (10 * p) == 10 * (q * p);
  }

  lemma WholeBarriers(n: nat, q: nat, j: nat, k: nat)
    requires j < k && q * Pow10(k) <= n < q * Pow10(k) + Pow10(k)
    ensures q * Pow10(k) <= RoundTo(n, Pow10(j)) <= q * Pow10(k) + Pow10(k)
  {
    Middle(q, k);
    var a := Finer(q, j, k);
    var b := Finer(q + 1, j, k);
    RoundToAtLeast(n, a, Pow10(j));
    RoundToAtMost(n, b, Pow10(j));
  }

  lemma HalfBarrier(n: nat, q: nat, j: nat, k: nat)
    requires j < k
    ensures var h, r := (10 * q + 5) * Pow10(k - 1), RoundTo(n, Pow10(j)); (n <= h ==> r <= h) && (n >= h ==> r >= h)
  {
    var c := Finer(10 * q + 5, j, k - 1);
    if n <= c * Pow10(j) {
      RoundToAtMost(n, c, Pow10(j));
    }
    if n >= c * Pow10(j) {
      RoundToAtLeast(n, c, Pow10(j));
    }
  }

  /** Whole cents and half cents are multiples of any finer unit, so rounding to it does not cross them. */
  lemma Barriers(n: nat, q: nat, j: nat, k: nat)
    requires j < k && q * Pow10(k) <= n < q * Pow10(k) + Pow10(k)
    ensures SameSide(n, RoundTo(n, Pow10(j)), q, Pow10(k))
  {
    Middle(q, k);
    WholeBarriers(n, q, j, k);
    HalfBarrier(n, q, j, k);
  }

  lemma WholeIsNotHalf(m: nat, u: nat)
    requires u > 0
    ensures !Half(m * u, u) && Nearest(m * u, u) == m
  {
    DivMod(m * u, m, 0, u);
  }

  /** Rounding twice gives the cent that rounding once gives, unless the first rounding lands half way
      between two cents on a number that was not there; then it has moved by less than half a cent. */
  lemma TwiceRounded(n: nat, k: nat)
    requires Nearest(Round28(n), Pow10(k)) < LIMIT
    ensures var r, u := Round28(n), Pow10(k);
            if Half(r, u) && r != n then 2 * (r - n) < u && 2 * (n - r) < u else Nearest(r, u) == Nearest(n, u)
  {
    var j := Rounded(n);
    if j < k {
      FineIsNear(n, j, k);
      FineThenCent(n, j, k);
    } else if j == k {
      WholeIsNotHalf(Nearest(n, Pow10(k)), Pow10(k));
    } else {
      CoarseIsLarge(n, j, k);
      NearestAtLeast(Round28(n), LIMIT, Pow10(k));
    }
  }

  // ---------- a total in two parts ----------

  /** By how many cents part and rest, each rounded to a cent, miss a whole total; the rest is
      total - part, rounded to 28 digits first. part is in units of which cent make one cent. */
  function Drift(total: nat, part: nat, cent: nat): int
    requires cent > 0 && part <= total * cent
  {
    var rest := total * cent - part;
    var r := Round28(rest);
    if Half(r, cent) && r != rest then
      if r < rest then (if r / cent % 2 == 0 then -1 else 0) else (if r / cent % 2 == 0 then 0 else 1)
    else if Half(part, cent) && total % 2 == 1 then (if part / cent % 2 == 0 then -1 else 1)
    else 0
  }

  lemma Complement(total: nat, q: nat, cent: nat)
    requires q < total
    ensures (total - q - 1) * cent == total * cent - q * cent - cent
  {
  }

  lemma HalfIsNearest(n: nat, cent: nat)
    requires cent > 0 && Half(n, cent)
    ensures Nearest(n, cent) == n / cent + n / cent % 2
  {
  }

  lemma Parity(total: nat, q: nat)
    requires q < total
    ensures (total - q - 1) % 2 == if total % 2 == 0 then 1 - q % 2 else q % 2
  {
    assert total == 2 * (total / 2) + total % 2 && q == 2 * (q / 2) + q % 2;
  }

  /** Without the first rounding, a cent is lost or gained exactly when both parts end in half a cent
      and the total is odd. */
  lemma SplitNearest(total: nat, part: nat, cent: nat)
    requires cent > 0 && part <= total * cent
    ensures Nearest(part, cent) + Nearest(total * cent - part, cent) == total +
              if Half(part, cent) && total % 2 == 1 then (if part / cent % 2 == 0 then -1 else 1) else 0
  {
    var q := CentBelow(part, cent);
    NextMultiple(total, q, cent);
    if part == q * cent {
      WholeIsNotHalf(q, cent);
      assert total * cent - part == (total - q) * cent;
      WholeIsNotHalf(total - q, cent);
    } else {
      SplitWithin(total, part, q, cent);
    }
  }

  lemma SplitWithin(total: nat, part: nat, q: nat, cent: nat)
    requires cent > 0 && part <= total * cent && q * cent < part < q * cent + cent
    ensures Nearest(part, cent) + Nearest(total * cent - part, cent) == total +
              if Half(part, cent) && total % 2 == 1 then (if part / cent % 2 == 0 then -1 else 1) else 0
  {
    NextMultiple(total, q, cent);
    Complement(total, q, cent);
    var rest := total * cent - part;
    NearestOf(part, q, cent);
    NearestOf(rest, total - q - 1, cent);
    DivMod(part, q, part - q * cent, cent);
    DivMod(rest, total - q - 1, rest - (total - q - 1) * cent, cent);
    if Half(part, cent) {
      HalfIsNearest(part, cent);
      HalfIsNearest(rest, cent);
      Parity(total, q);
    }
  }

  /** A rest that rounding moved onto the half cent above a leaves a part on the other side of its own. */
  lemma SplitMoved(total: nat, part: nat, r: nat, cent: nat)
    requires cent > 0 && part <= total * cent && Half(r, cent)
    requires var rest := total * cent - part; r != rest && 2 * (r - rest) < cent && 2 * (rest - r) < cent
    ensures Nearest(part, cent) + Nearest(r, cent) == total + if r < total * cent - part then r / cent % 2 - 1 else r / cent % 2
  {
    var a := CentBelow(r, cent);
    DivMod(r, a, r - a * cent, cent);
    NextMultiple(total, a, cent);
    Complement(total, a, cent);
    NearestOf(part, total - a - 1, cent);
    HalfIsNearest(r, cent);
  }

  /** The two rounded parts add up to the total and its drift. */
  lemma PartsDrift(total: nat, part: nat, k: nat)
    requires part <= total * Pow10(k) && Nearest(Round28(total * Pow10(k) - part), Pow10(k)) < LIMIT
    ensures Nearest(part, Pow10(k)) + Nearest(Round28(total * Pow10(k) - part), Pow10(k)) == total + Drift(total, part, Pow10(k))
  {
    var rest := total * Pow10(k) - part;
    TwiceRounded(rest, k);
    if Half(Round28(rest), Pow10(k)) && Round28(rest) != rest {
      SplitMoved(total, part, Round28(rest), Pow10(k));
    } else {
      SplitNearest(total, part, Pow10(k));
    }
  }

  // ---------- the loss of a cent ----------

  /** 28 digits: 10^28 is the power of ten that LIMIT names. */
  lemma LimitIsPower()
    ensures Pow10(28) == LIMIT
  {
    assert Pow10(7) == 10_000_000;
    Pow10Add(7, 7);
    Pow10Add(14, 14);
  }

  // ---------- reaching a multiple from below ----------

  lemma Cancel(a: int, b: int, u: nat)
    requires u > 0
    ensures a * u == b * u <==> a == b
  {
    NextMultiple(a, b, u);
    NextMultiple(b, a, u);
  }

  lemma NearestBelow(n: nat, c: nat, u: nat)
    requires u > 0 && n < c * u
    ensures RoundTo(n, u) == c * u <==> 2 * (c * u - n) < u || (2 * (c * u - n) == u && c % 2 == 0)
  {
    Cancel(Nearest(n, u), c, u);
    NextMultiple(c, 0, u);
    assert c > 0;
    assert (c - 1) * u == c * u - u;
    if n < (c - 1) * u {
      NearestAtMost(n, c - 1, u);
    } else {
      DivMod(n, c - 1, n - (c - 1) * u, u);
    }
  }

  lemma TenTimes(m: nat, p: nat)
    ensures m * (10 * p) == 10 * m * p == 10 * (m * p)
  {
  }

  lemma TenIsEven(c: nat, m: nat, p: nat)
    requires c == 10 * m * p
    ensures c % 2 == 0
  {
    TenTimes(m, p);
    assert c == 10 * (m * p);
  }

  /** A multiple of a cent, in a unit finer than the cent, is an even number of units. */
  lemma FinerEven(m: nat, j: nat, k: nat) returns (c: nat)
    requires j < k
    ensures m * Pow10(k) == c * Pow10(j) && c % 2 == 0
  {
    c := Finer(10 * m, j, k - 1);
    TenIsEven(c, m, Pow10(k - 1 - j));
    TenTimes(m, Pow10(k - 1));
  }

  lemma FinerIsSmaller(j: nat, k: nat)
    requires j < k
    ensures Pow10(j) < Pow10(k)
  {
    Pow10Grows(j, k - 1);
    assert Pow10(k) == 10 * Pow10(k - 1);
  }
}
