/** Wallet coin selection: greedy, largest first, with change and local locks. */
module Wallet {
  import opened Prelude
  import opened Decimal
  import opened Rounding
  import opened Syntax
  import opened TxRules

  /** A local token as the wallet stores it. */
  datatype Coin = Coin(id: string, amount: nat, currency: string)

  /** A payment as built: chosen coins, and the two quantized outputs; change is absent when nothing is left over. */
  datatype Payment = Payment(chosen: seq<Coin>, paid: nat, change: Option<nat>)

  function Amounts(cs: seq<Coin>): seq<nat> {
    seq(|cs|, i requires 0 <= i < |cs| => cs[i].amount)
  }

  function Total(cs: seq<Coin>): nat {
    Sum(Amounts(cs))
  }

  /** The total as a loop of decimal additions finds it, in list order. */
  function Running(cs: seq<Coin>): nat {
    DecSum(Amounts(cs))
  }

  lemma RunningSnoc(cs: seq<Coin>, c: Coin)
    ensures Running(cs + [c]) == Round28(Running(cs) + c.amount)
  {
    assert Amounts(cs + [c])[..|cs|] == Amounts(cs);
  }

  /** Exact up to 10^28 cents, never below that beyond. */
  lemma RunningExact(cs: seq<Coin>)
    ensures Total(cs) <= LIMIT ==> Running(cs) == Total(cs)
    ensures Total(cs) >= LIMIT ==> Running(cs) >= LIMIT
  {
    DecSumExact(Amounts(cs));
  }

  lemma TotalSnoc(cs: seq<Coin>, c: Coin)
    ensures Total(cs + [c]) == Total(cs) + c.amount
  {
    assert Amounts(cs + [c])[..|cs|] == Amounts(cs);
  }

  lemma TotalAppend(a: seq<Coin>, b: seq<Coin>)
    ensures Total(a + b) == Total(a) + Total(b)
  {
    SumAppend(Amounts(a), Amounts(b));
    assert Amounts(a + b) == Amounts(a) + Amounts(b);
  }

  // ---------- available coins, largest first ----------

  /** The coins of a list that satisfy a condition, in their order. */
  function Keep(cs: seq<Coin>, p: Coin -> bool): (r: seq<Coin>)
    ensures forall c :: c in r <==> c in cs && p(c)
  {
    if cs == [] then [] else
      var front, c := Keep(cs[..|cs| - 1], p), cs[|cs| - 1];
      assert cs == cs[..|cs| - 1] + [c];
      if p(c) then front + [c] else front
  }

  lemma KeepSnoc(cs: seq<Coin>, c: Coin, p: Coin -> bool)
    ensures Keep(cs + [c], p) == if p(c) then Keep(cs, p) + [c] else Keep(cs, p)
  {
    assert (cs + [c])[..|cs|] == cs;
  }

  function Free(currency: string, locked: set<string>): Coin -> bool {
    (c: Coin) => c.currency == currency && c.id !in locked
  }

  function Held(currency: string, locked: set<string>): Coin -> bool {
    (c: Coin) => c.currency == currency && c.id in locked
  }

  function Available(coins: seq<Coin>, currency: string, locked: set<string>): seq<Coin> {
    Keep(coins, Free(currency, locked))
  }

  function Pending(coins: seq<Coin>, currency: string, locked: set<string>): seq<Coin> {
    Keep(coins, Held(currency, locked))
  }

  predicate Descending(cs: seq<Coin>) {
    forall i, j :: 0 <= i < j < |cs| ==> cs[i].amount >= cs[j].amount
  }

  /** Stable insertion into a descending list. */
  function Insert(cs: seq<Coin>, c: Coin): seq<Coin> {
    if cs == [] || cs[|cs| - 1].amount >= c.amount then cs + [c]
    else Insert(cs[..|cs| - 1], c) + [cs[|cs| - 1]]
  }

  /** The list sorted by amount, largest first, ties in their original order. */
  function Sorted(cs: seq<Coin>): seq<Coin> {
    if cs == [] then [] else Insert(Sorted(cs[..|cs| - 1]), cs[|cs| - 1])
  }

  lemma {:induction false} InsertKeeps(cs: seq<Coin>, c: Coin)
    ensures multiset(Insert(cs, c)) == multiset(cs) + multiset{c}
  {
    if cs != [] && cs[|cs| - 1].amount < c.amount {
      var n := |cs| - 1;
      assert cs == cs[..n] + [cs[n]];
      InsertKeeps(cs[..n], c);
    }
  }

  lemma AllAtLeast(r: seq<Coin>, front: seq<Coin>, c: Coin, low: nat)
    requires multiset(r) == multiset(front) + multiset{c} && c.amount >= low
    requires forall i :: 0 <= i < |front| ==> front[i].amount >= low
    ensures forall i :: 0 <= i < |r| ==> r[i].amount >= low
  {
    forall i | 0 <= i < |r| ensures r[i].amount >= low {
      assert r[i] in multiset(r);
      assert r[i] in front || r[i] == c;
    }
  }

  lemma {:induction false} InsertDescends(cs: seq<Coin>, c: Coin)
    requires Descending(cs)
    ensures Descending(Insert(cs, c))
  {
    if cs != [] && cs[|cs| - 1].amount < c.amount {
      var n := |cs| - 1;
      InsertDescends(cs[..n], c);
      InsertKeeps(cs[..n], c);
      AllAtLeast(Insert(cs[..n], c), cs[..n], c, cs[n].amount);
    }
  }

  lemma {:induction false} SortedIsSorted(cs: seq<Coin>)
    ensures Descending(Sorted(cs)) && multiset(Sorted(cs)) == multiset(cs)
  {
    if cs != [] {
      var n := |cs| - 1;
      assert cs == cs[..n] + [cs[n]];
      SortedIsSorted(cs[..n]);
      InsertDescends(Sorted(cs[..n]), cs[n]);
      InsertKeeps(Sorted(cs[..n]), cs[n]);
    }
  }

  function OfAmount(a: nat): Coin -> bool {
    (c: Coin) => c.amount == a
  }

  lemma {:induction false} InsertStable(cs: seq<Coin>, c: Coin, a: nat)
    ensures Keep(Insert(cs, c), OfAmount(a)) == Keep(cs + [c], OfAmount(a))
  {
    KeepSnoc(cs, c, OfAmount(a));
    if cs != [] && cs[|cs| - 1].amount < c.amount {
      var n := |cs| - 1;
      assert cs == cs[..n] + [cs[n]];
      InsertStable(cs[..n], c, a);
      KeepSnoc(Insert(cs[..n], c), cs[n], OfAmount(a));
      KeepSnoc(cs[..n], c, OfAmount(a));
      KeepSnoc(cs[..n], cs[n], OfAmount(a));
    }
  }

  /** Coins of equal amount keep their order. */
  lemma {:induction false} SortedIsStable(cs: seq<Coin>, a: nat)
    ensures Keep(Sorted(cs), OfAmount(a)) == Keep(cs, OfAmount(a))
  {
    if cs != [] {
      var n := |cs| - 1;
      assert cs == cs[..n] + [cs[n]];
      SortedIsStable(cs[..n], a);
      InsertStable(Sorted(cs[..n]), cs[n], a);
      KeepSnoc(Sorted(cs[..n]), cs[n], OfAmount(a));
      KeepSnoc(cs[..n], cs[n], OfAmount(a));
    }
  }

  function Without(cs: seq<Coin>, i: nat): seq<Coin>
    requires i < |cs|
  {
    cs[..i] + cs[i + 1..]
  }

  lemma WithoutOne(cs: seq<Coin>, i: nat)
    requires i < |cs|
    ensures Total(cs) == Total(Without(cs, i)) + cs[i].amount
    ensures multiset(Without(cs, i)) == multiset(cs) - multiset{cs[i]}
  {
    assert cs == cs[..i] + [cs[i]] + cs[i + 1..];
    TotalSnoc(cs[..i], cs[i]);
    TotalAppend(cs[..i] + [cs[i]], cs[i + 1..]);
    TotalAppend(cs[..i], cs[i + 1..]);
  }

  /** A total does not depend on the order. */
  lemma {:induction false} TotalOfMultiset(a: seq<Coin>, b: seq<Coin>)
    requires multiset(a) == multiset(b)
    ensures Total(a) == Total(b)
  {
    assert |a| == |multiset(a)| == |multiset(b)| == |b|;
    if a != [] {
      var n := |a| - 1;
      assert a == a[..n] + [a[n]];
      assert a[n] in multiset(b);
      var i :| 0 <= i < |b| && b[i] == a[n];
      WithoutOne(b, i);
      assert multiset(a[..n]) == multiset(a) - multiset{a[n]};
      TotalOfMultiset(a[..n], Without(b, i));
      TotalSnoc(a[..n], a[n]);
    }
  }

  // ---------- the greedy choice ----------

  predicate Enough(total: nat, amount: Amount) {
    total * amount.Cent() >= amount.digits
  }

  predicate AtMostCents(amount: Amount, bound: nat) {
    amount.digits <= bound * amount.Cent()
  }

  lemma EnoughGrows(a: nat, b: nat, amount: Amount)
    requires a <= b && Enough(a, amount)
    ensures Enough(b, amount)
  {
    Times(a, b, amount.Cent());
  }

  /** Up to 10^28 cents, the running total reaches an amount exactly when the true one does. */
  lemma EnoughExact(cs: seq<Coin>, amount: Amount)
    requires AtMostCents(amount, LIMIT)
    ensures Enough(Running(cs), amount) <==> Enough(Total(cs), amount)
  {
    RunningExact(cs);
    if Total(cs) > LIMIT {
      EnoughGrows(LIMIT, Total(cs), amount);
      EnoughGrows(LIMIT, Running(cs), amount);
    }
  }

  /** The least number of leading coins whose running total reaches the amount; all of them if none does. */
  function Needed(cs: seq<Coin>, amount: Amount, n: nat): (k: nat)
    requires n <= |cs|
    ensures n <= k <= |cs|
    decreases |cs| - n
  {
    if n == |cs| || (n > 0 && Enough(Running(cs[..n]), amount)) then n else Needed(cs, amount, n + 1)
  }

  lemma {:induction false} NeededIsLeast(cs: seq<Coin>, amount: Amount, n: nat)
    requires n <= |cs|
    ensures var k := Needed(cs, amount, n);
            && (forall m :: n <= m < k && m > 0 ==> !Enough(Running(cs[..m]), amount))
            && (k < |cs| ==> k > 0 && Enough(Running(cs[..k]), amount))
    decreases |cs| - n
  {
    if n < |cs| && !(n > 0 && Enough(Running(cs[..n]), amount)) {
      NeededIsLeast(cs, amount, n + 1);
    }
  }

  lemma {:induction false} PrefixTotals(cs: seq<Coin>, i: nat, j: nat)
    requires i <= j <= |cs|
    ensures Total(cs[..i]) <= Total(cs[..j])
    decreases j - i
  {
    if i < j {
      PrefixTotals(cs, i, j - 1);
      assert cs[..j] == cs[..j - 1] + [cs[j - 1]];
      TotalSnoc(cs[..j - 1], cs[j - 1]);
    }
  }

  lemma HeadAndTail(cs: seq<Coin>, k: nat)
    requires 0 < k <= |cs|
    ensures Total(cs[..k]) == cs[0].amount + Total(cs[1..][..k - 1])
    ensures multiset(cs) == multiset{cs[0]} + multiset(cs[1..])
  {
    assert cs == [cs[0]] + cs[1..];
    assert cs[..k] == [cs[0]] + cs[1..][..k - 1];
    TotalAppend([cs[0]], cs[1..][..k - 1]);
    assert [] + [cs[0]] == [cs[0]];
    TotalSnoc([], cs[0]);
  }

  lemma WithinTail(some: multiset<Coin>, head: Coin, tail: multiset<Coin>)
    requires some <= multiset{head} + tail
    ensures some - multiset{head} <= tail && (head !in some ==> some <= tail)
  {
    assert head !in some ==> some - multiset{head} == some;
  }

  /** The j largest coins are worth at least as much as any other j of them. */
  lemma {:induction false} LargestAreWorthMost(cs: seq<Coin>, pick: seq<Coin>)
    requires Descending(cs) && multiset(pick) <= multiset(cs)
    ensures |pick| <= |cs| && Total(pick) <= Total(cs[..|pick|])
    decreases |cs|, 1
  {
    if pick != [] {
      assert pick[0] in multiset(cs);
      HeadAndTail(cs, 1);
      WithinTail(multiset(pick), cs[0], multiset(cs[1..]));
      if cs[0] in pick {
        LargestWithHead(cs, pick);
      } else {
        LargestAreWorthMost(cs[1..], pick);
        ShiftDown(cs, |pick|);
      }
    }
  }

  lemma {:induction false} LargestWithHead(cs: seq<Coin>, pick: seq<Coin>)
    requires Descending(cs) && cs != [] && cs[0] in pick && multiset(pick) - multiset{cs[0]} <= multiset(cs[1..])
    ensures |pick| <= |cs| && Total(pick) <= Total(cs[..|pick|])
    decreases |cs|, 0
  {
    var i :| 0 <= i < |pick| && pick[i] == cs[0];
    WithoutOne(pick, i);
    LargestAreWorthMost(cs[1..], Without(pick, i));
    HeadAndTail(cs, |pick|);
  }

  lemma {:induction false} ShiftDown(cs: seq<Coin>, k: nat)
    requires Descending(cs) && k < |cs|
    ensures Total(cs[1..][..k]) <= Total(cs[..k])
    decreases k
  {
    if k > 0 {
      ShiftDown(cs, k - 1);
      assert cs[1..][..k] == cs[1..][..k - 1] + [cs[k]];
      assert cs[..k] == cs[..k - 1] + [cs[k - 1]];
      TotalSnoc(cs[1..][..k - 1], cs[k]);
      TotalSnoc(cs[..k - 1], cs[k - 1]);
    }
  }

  // ---------- building a payment ----------

  datatype BuildError = InsufficientBalance | OutputNotPositive | TooManyDigits

  /** The coins build_payment takes from a list: sort, then the shortest prefix that reaches the amount. */
  function Chosen(coins: seq<Coin>, locked: set<string>, currency: string, amount: Amount): seq<Coin> {
    var cs := Sorted(Available(coins, currency, locked));
    cs[..Needed(cs, amount, 0)]
  }

  /** An amount as an output carries it: whole cents, half to even. */
  function Paid(amount: Amount): nat
    requires amount.digits >= 0
  {
    Nearest(amount.digits, amount.Cent())
  }

  predicate LeavesChange(total: nat, amount: Amount) {
    total * amount.Cent() > amount.digits
  }

  /** The change as an output carries it: the difference, rounded to 28 digits, then to whole cents. */
  function Change(total: nat, amount: Amount): nat
    requires Enough(total, amount)
  {
    Nearest(Round28(total * amount.Cent() - amount.digits), amount.Cent())
  }

  /** Quantizing refuses a result of more than 28 digits. */
  predicate Fits(total: nat, amount: Amount)
    requires Enough(total, amount) && amount.digits >= 0
  {
    Paid(amount) < LIMIT && (LeavesChange(total, amount) ==> Change(total, amount) < LIMIT)
  }

  function Build(coins: seq<Coin>, locked: set<string>, currency: string, amount: Amount): Result<Payment, BuildError> {
    var chosen := Chosen(coins, locked, currency, amount);
    var total := Running(chosen);
    if !Enough(total, amount) then Err(InsufficientBalance)
    else if amount.digits <= 0 then Err(OutputNotPositive)
    else if !Fits(total, amount) then Err(TooManyDigits)
    else Ok(Payment(chosen, Paid(amount), if LeavesChange(total, amount) then Some(Change(total, amount)) else None))
  }

  function Outputs(p: Payment, currency: string, merchant: string, me: string): seq<Output> {
    [Output(p.paid, currency, merchant, "")] +
    if p.change.Some? then [Output(p.change.value, currency, me, "")] else []
  }

  /** The transaction built: unsigned, with a random id of its own, and no fee. */
  function AsTx(p: Payment, id: string, currency: string, merchant: string, me: string): Tx {
    Tx(Some(id), seq(|p.chosen|, i requires 0 <= i < |p.chosen| => TxIn(p.chosen[i].id, "")),
       Outputs(p, currency, merchant, me), 0, false)
  }

  function BuildTx(coins: seq<Coin>, locked: set<string>, currency: string, amount: Amount, merchant: string, me: string,
                   id: string): Result<Tx, BuildError>
  {
    var b := Build(coins, locked, currency, amount);
    if b.Ok? then Ok(AsTx(b.value, id, currency, merchant, me)) else Err(b.error)
  }

  lemma ChosenAreAvailable(coins: seq<Coin>, locked: set<string>, currency: string, amount: Amount)
    ensures multiset(Chosen(coins, locked, currency, amount)) <= multiset(Available(coins, currency, locked))
  {
    var all := Available(coins, currency, locked);
    var cs := Sorted(all);
    SortedIsSorted(all);
    var k := Needed(cs, amount, 0);
    assert cs == cs[..k] + cs[k..];
  }

  lemma AvailableTotal(coins: seq<Coin>, locked: set<string>, currency: string)
    ensures var all := Available(coins, currency, locked);
            Descending(Sorted(all)) && multiset(Sorted(all)) == multiset(all) && Total(Sorted(all)) == Total(all)
  {
    var all := Available(coins, currency, locked);
    SortedIsSorted(all);
    TotalOfMultiset(Sorted(all), all);
  }

  lemma PrefixReachesIff(cs: seq<Coin>, amount: Amount)
    requires amount.digits > 0 && AtMostCents(amount, LIMIT)
    ensures Enough(Running(cs[..Needed(cs, amount, 0)]), amount) <==> Enough(Total(cs), amount)
  {
    var k := Needed(cs, amount, 0);
    NeededIsLeast(cs, amount, 0);
    EnoughExact(cs[..k], amount);
    if k == |cs| {
      assert cs[..k] == cs;
    } else {
      PrefixTotals(cs, k, |cs|);
      assert cs[..|cs|] == cs;
      EnoughGrows(Total(cs[..k]), Total(cs), amount);
    }
  }

  /** A positive amount of at most 10^28 cents is reached by the chosen coins exactly when all available ones cover it. */
  lemma ChosenCoverIff(coins: seq<Coin>, locked: set<string>, currency: string, amount: Amount)
    requires amount.digits > 0 && AtMostCents(amount, LIMIT)
    ensures Enough(Running(Chosen(coins, locked, currency, amount)), amount) <==>
            Enough(Total(Available(coins, currency, locked)), amount)
  {
    AvailableTotal(coins, locked, currency);
    PrefixReachesIff(Sorted(Available(coins, currency, locked)), amount);
  }

  lemma SmallPaid(amount: Amount)
    requires amount.digits >= 0 && Paid(amount) < LIMIT
    ensures AtMostCents(amount, LIMIT)
  {
    if amount.digits > LIMIT * amount.Cent() {
      NearestAtLeast(amount.digits, LIMIT, amount.Cent());
    }
  }

  /** When a payment is built: the amount is positive, the unlocked coins of the currency cover it,
      and neither output needs more than 28 digits. */
  lemma BuildsIffCovered(coins: seq<Coin>, locked: set<string>, currency: string, amount: Amount)
    ensures Build(coins, locked, currency, amount).Ok? <==>
            && amount.digits > 0 && Paid(amount) < LIMIT && Enough(Total(Available(coins, currency, locked)), amount)
            && var total := Running(Chosen(coins, locked, currency, amount));
               (Enough(total, amount) && LeavesChange(total, amount) ==> Change(total, amount) < LIMIT)
    ensures Build(coins, locked, currency, amount) == Err(OutputNotPositive) <==> amount.digits <= 0
    ensures amount.digits > 0 && Paid(amount) < LIMIT ==>
      (Build(coins, locked, currency, amount) == Err(InsufficientBalance) <==> !Enough(Total(Available(coins, currency, locked)), amount))
  {
    if amount.digits > 0 {
      if Paid(amount) < LIMIT {
        SmallPaid(amount);
        ChosenCoverIff(coins, locked, currency, amount);
      }
    } else {
      assert Running(Chosen(coins, locked, currency, amount)) * amount.Cent() >= 0;
    }
  }

  lemma SmallTotalFits(total: nat, amount: Amount)
    requires total < LIMIT && amount.digits > 0 && Enough(total, amount)
    ensures Fits(total, amount)
  {
    NearestAtMost(amount.digits, total, amount.Cent());
    var rest := total * amount.Cent() - amount.digits;
    Round28AtMost(rest, total, amount.places);
    NearestAtMost(Round28(rest), total, amount.Cent());
  }

  lemma ChosenTotal(coins: seq<Coin>, locked: set<string>, currency: string, amount: Amount)
    ensures Total(Chosen(coins, locked, currency, amount)) <= Total(Available(coins, currency, locked))
  {
    var cs := Sorted(Available(coins, currency, locked));
    AvailableTotal(coins, locked, currency);
    PrefixTotals(cs, Needed(cs, amount, 0), |cs|);
    assert cs[..|cs|] == cs;
  }

  ghost predicate BuiltWhenCovered(coins: seq<Coin>, locked: set<string>, currency: string, amount: Amount) {
    Build(coins, locked, currency, amount).Ok? <==>
    amount.digits > 0 && Enough(Total(Available(coins, currency, locked)), amount)
  }

  lemma SmallWalletBuilds(coins: seq<Coin>, locked: set<string>, currency: string, amount: Amount)
    requires Total(Available(coins, currency, locked)) < LIMIT
    ensures BuiltWhenCovered(coins, locked, currency, amount)
  {
    var chosen := Chosen(coins, locked, currency, amount);
    BuildsIffCovered(coins, locked, currency, amount);
    ChosenTotal(coins, locked, currency, amount);
    RunningExact(chosen);
    if amount.digits > 0 && Enough(Total(Available(coins, currency, locked)), amount) {
      SmallTotalFits(Total(Available(coins, currency, locked)), amount);
      if Enough(Running(chosen), amount) {
        SmallTotalFits(Running(chosen), amount);
      }
    }
  }

  /** A coin one cent below 10^28, and a coin of any amount, under any two ids. */
  function Big(id: string): Coin {
    Coin(id, LIMIT - 1, "INR")
  }

  function Pair(a: string, b: string, amount: nat): seq<Coin> {
    [Big(a), Coin(b, amount, "INR")]
  }

  lemma PairKept(a: string, b: string, amount: nat, p: Coin -> bool)
    requires p(Big(a)) && p(Coin(b, amount, "INR"))
    ensures Keep(Pair(a, b, amount), p) == Pair(a, b, amount)
  {
    var c := Coin(b, amount, "INR");
    assert [] + [Big(a)] == [Big(a)] && [Big(a)] + [c] == Pair(a, b, amount);
    KeepSnoc([], Big(a), p);
    KeepSnoc([Big(a)], c, p);
  }

  lemma PairTotals(a: string, b: string, amount: nat)
    ensures Total(Pair(a, b, amount)) == LIMIT - 1 + amount
    ensures Running(Pair(a, b, amount)) == Round28(LIMIT - 1 + amount)
  {
    var c := Coin(b, amount, "INR");
    assert [] + [Big(a)] == [Big(a)] && [Big(a)] + [c] == Pair(a, b, amount);
    TotalSnoc([], Big(a));
    TotalSnoc([Big(a)], c);
    RunningSnoc([], Big(a));
    RunningSnoc([Big(a)], c);
  }

  /** Exactly 10^28 cents are covered by two coins, but an output of that amount needs 29 digits. */
  lemma TenToThe28Refused(a: string, b: string)
    ensures Total(Available(Pair(a, b, 1), "INR", {})) == LIMIT
    ensures !BuiltWhenCovered(Pair(a, b, 1), {}, "INR", Amount(LIMIT, 0))
  {
    PairKept(a, b, 1, Free("INR", {}));
    PairTotals(a, b, 1);
    BuildsIffCovered(Pair(a, b, 1), {}, "INR", Amount(LIMIT, 0));
    assert Pow10(0) == 1;
  }

  ghost predicate BuildsUpTo(bound: nat) {
    forall coins, locked, currency, amount: Amount :: Total(Available(coins, currency, locked)) <= bound ==>
      BuiltWhenCovered(coins, locked, currency, amount)
  }

  lemma SmallWalletsBuild(bound: nat)
    requires bound < LIMIT
    ensures BuildsUpTo(bound)
  {
    forall coins, locked, currency, amount | Total(Available(coins, currency, locked)) <= bound
      ensures BuiltWhenCovered(coins, locked, currency, amount)
    {
      SmallWalletBuilds(coins, locked, currency, amount);
    }
  }

  lemma LargeWalletFails(bound: nat)
    requires bound >= LIMIT
    ensures !BuildsUpTo(bound)
  {
    TenToThe28Refused(ZERO_UUID, ONE_UUID);
    assert Total(Available(Pair(ZERO_UUID, ONE_UUID, 1), "INR", {})) <= bound;
  }

  /** A positive amount that is covered is always built, if and only if the available coins stay below 10^28 cents. */
  lemma BuiltWhenCoveredIff(bound: nat)
    ensures BuildsUpTo(bound) <==> bound < LIMIT
  {
    if bound < LIMIT {
      SmallWalletsBuild(bound);
    } else {
      LargeWalletFails(bound);
    }
  }

  // ---------- optimality ----------

  predicate Covers(coins: seq<Coin>, locked: set<string>, currency: string, amount: Amount, pick: seq<Coin>) {
    multiset(pick) <= multiset(Available(coins, currency, locked)) && Enough(Total(pick), amount)
  }

  /** Greedy is optimal: no selection of available coins that covers the amount uses fewer coins. */
  lemma GreedyIsOptimal(coins: seq<Coin>, locked: set<string>, currency: string, amount: Amount, pick: seq<Coin>)
    requires amount.digits > 0 && AtMostCents(amount, LIMIT) && Covers(coins, locked, currency, amount, pick)
    ensures |Chosen(coins, locked, currency, amount)| <= |pick|
  {
    var cs, m := Sorted(Available(coins, currency, locked)), |pick|;
    AvailableTotal(coins, locked, currency);
    LargestAreWorthMost(cs, pick);
    NeededIsLeast(cs, amount, 0);
    assert m == 0 ==> Total(pick) == 0;
    EnoughGrows(Total(pick), Total(cs[..m]), amount);
    EnoughExact(cs[..m], amount);
  }

  ghost predicate Optimal(coins: seq<Coin>, locked: set<string>, currency: string, amount: Amount) {
    forall pick :: Covers(coins, locked, currency, amount, pick) ==> |Chosen(coins, locked, currency, amount)| <= |pick|
  }

  /** Every payment that is built spends the fewest coins that could pay it. */
  lemma {:induction false} BuiltIsOptimal(coins: seq<Coin>, locked: set<string>, currency: string, amount: Amount)
    ensures Build(coins, locked, currency, amount).Ok? ==> Optimal(coins, locked, currency, amount)
  {
    if Build(coins, locked, currency, amount).Ok? {
      SmallPaid(amount);
      forall pick | Covers(coins, locked, currency, amount, pick) ensures |Chosen(coins, locked, currency, amount)| <= |pick| {
        GreedyIsOptimal(coins, locked, currency, amount, pick);
      }
    }
  }

  /** A payment that could be made from a selection: it covers the amount, and the amount fits an output. */
  predicate Pays(coins: seq<Coin>, locked: set<string>, currency: string, amount: Amount, pick: seq<Coin>) {
    amount.digits > 0 && Covers(coins, locked, currency, amount, pick) && Paid(amount) < LIMIT
  }

  /** So if the greedy choice exceeds the ledgers' input limit, no selection within the limit could pay. */
  lemma BeyondLimitMeansUnpayable(coins: seq<Coin>, locked: set<string>, currency: string, amount: Amount, pick: seq<Coin>)
    requires |Chosen(coins, locked, currency, amount)| > MAX_TX_INPUTS && |pick| <= MAX_TX_INPUTS
    ensures !Pays(coins, locked, currency, amount, pick)
  {
    if Pays(coins, locked, currency, amount, pick) {
      SmallPaid(amount);
      GreedyIsOptimal(coins, locked, currency, amount, pick);
    }
  }

  // ---------- the wallet ----------

  lemma KeepSnocAt(cs: seq<Coin>, i: nat, p: Coin -> bool)
    requires i < |cs|
    ensures Keep(cs[..i + 1], p) == if p(cs[i]) then Keep(cs[..i], p) + [cs[i]] else Keep(cs[..i], p)
  {
    assert cs[..i + 1] == cs[..i] + [cs[i]];
    KeepSnoc(cs[..i], cs[i], p);
  }

  lemma RunningMore(kept: seq<Coin>, more: seq<Coin>, c: Coin, taken: bool)
    requires more == if taken then kept + [c] else kept
    ensures Running(more) == if taken then Round28(Running(kept) + c.amount) else Running(kept)
  {
    if taken {
      RunningSnoc(kept, c);
    }
  }

  lemma RunningKeepSnoc(cs: seq<Coin>, i: nat, p: Coin -> bool)
    requires i < |cs|
    ensures Running(Keep(cs[..i + 1], p)) ==
            if p(cs[i]) then Round28(Running(Keep(cs[..i], p)) + cs[i].amount) else Running(Keep(cs[..i], p))
  {
    KeepSnocAt(cs, i, p);
    RunningMore(Keep(cs[..i], p), Keep(cs[..i + 1], p), cs[i], p(cs[i]));
  }

  function Ids(cs: seq<Coin>): seq<string> {
    seq(|cs|, i requires 0 <= i < |cs| => cs[i].id)
  }

  /** The locally stored tokens and the persisted set of ids already promised to a payment. */
  class Wallet {
    var coins: seq<Coin>
    var locked: set<string>

    constructor (coins: seq<Coin>, locked: set<string>)
      ensures this.coins == coins && this.locked == locked
    {
      this.coins := coins;
      this.locked := locked;
    }

    method LockTokens(ids: seq<string>)
      modifies this`locked
      ensures locked == old(locked) + Elems(ids)
    {
      for i := 0 to |ids|
        invariant locked == old(locked) + Elems(ids[..i])
      {
        locked := locked + {ids[i]};
        assert ids[..i + 1] == ids[..i] + [ids[i]];
      }
      assert ids[..|ids|] == ids;
    }

    method SelectCoins(amount: Amount, currency: string) returns (chosen: seq<Coin>, total: nat)
      ensures chosen == Chosen(coins, locked, currency, amount) && total == Running(chosen)
    {
      var available := [];
      for i := 0 to |coins|
        invariant available == Available(coins[..i], currency, locked)
      {
        assert coins[..i + 1][..i] == coins[..i];
        if coins[i].currency == currency && coins[i].id !in locked {
          available := available + [coins[i]];
        }
      }
      assert coins[..|coins|] == coins;
      available := Sorted(available);
      var i := 0;
      chosen, total := [], 0;
      while i < |available|
        invariant i <= |available| && chosen == available[..i] && total == Running(chosen)
        invariant i > 0 ==> !Enough(total, amount)
        invariant Needed(available, amount, 0) == Needed(available, amount, i)
      {
        RunningSnoc(chosen, available[i]);
        chosen := chosen + [available[i]];
        total := Round28(total + available[i].amount);
        i := i + 1;
        assert available[..i] == chosen;
        if Enough(total, amount) {
          break;
        }
      }
    }

    /** One input for each coin, one output to the merchant, and one back to the payer if anything is left over. */
    method Assemble(p: Payment, id: string, currency: string, merchant: string, me: string) returns (tx: Tx)
      ensures tx == AsTx(p, id, currency, merchant, me) && InputIds(tx) == Ids(p.chosen)
    {
      var inputs := [];
      for i := 0 to |p.chosen|
        invariant |inputs| == i && forall j :: 0 <= j < i ==> inputs[j] == TxIn(p.chosen[j].id, "")
      {
        inputs := inputs + [TxIn(p.chosen[i].id, "")];
      }
      var outputs := [Output(p.paid, currency, merchant, "")];
      if p.change.Some? {
        outputs := outputs + [Output(p.change.value, currency, me, "")];
      }
      tx := Tx(Some(id), inputs, outputs, 0, false);
      assert tx.inputs == AsTx(p, id, currency, merchant, me).inputs;
    }

    /** The unsigned transaction of a payment; its coins are locked once nothing can fail any more. */
    method BuildPayment(merchant: string, amount: Amount, currency: string, me: string, id: string)
      returns (r: Result<Tx, BuildError>)
      modifies this`locked
      ensures r == BuildTx(coins, old(locked), currency, amount, merchant, me, id)
      ensures locked == old(locked) + if r.Ok? then Elems(InputIds(r.value)) else {}
      ensures r.Ok? ==> InputIds(r.value) == Ids(Chosen(coins, old(locked), currency, amount))
    {
      var chosen, total := SelectCoins(amount, currency);
      if !Enough(total, amount) {
        return Err(InsufficientBalance);
      }
      if amount.digits <= 0 {
        return Err(OutputNotPositive);
      }
      var paid := Paid(amount);
      if paid >= LIMIT {
        return Err(TooManyDigits);
      }
      var change := None;
      if LeavesChange(total, amount) {
        if Change(total, amount) >= LIMIT {
          return Err(TooManyDigits);
        }
        change := Some(Change(total, amount));
      }
      LockTokens(Ids(chosen));
      var tx := Assemble(Payment(chosen, paid, change), id, currency, merchant, me);
      r := Ok(tx);
    }

    /** The totals the balance command prints. */
    method Balance(currency: string) returns (available: nat, pending: nat)
      ensures available == Running(Available(coins, currency, locked))
      ensures pending == Running(Pending(coins, currency, locked))
    {
      available, pending := 0, 0;
      for i := 0 to |coins|
        invariant available == Running(Available(coins[..i], currency, locked))
        invariant pending == Running(Pending(coins[..i], currency, locked))
      {
        RunningKeepSnoc(coins, i, Free(currency, locked));
        RunningKeepSnoc(coins, i, Held(currency, locked));
        if coins[i].currency == currency && coins[i].id !in locked {
          available := Round28(available + coins[i].amount);
        }
        if coins[i].currency == currency && coins[i].id in locked {
          pending := Round28(pending + coins[i].amount);
        }
      }
      assert coins[..|coins|] == coins;
    }
  }
}
