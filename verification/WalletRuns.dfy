/** Sequences of wallet payments, and what a built payment is worth to the ledgers. */
module WalletRuns {
  import opened Prelude
  import opened Decimal
  import opened Rounding
  import opened TxRules
  import opened CoreModels
  import opened Syntax
  import opened Wallet

  datatype Request = Request(amount: Amount, currency: string)

  function LockedBy(r: Result<Payment, BuildError>): set<string> {
    if r.Ok? then Elems(Ids(r.value.chosen)) else {}
  }

  /** The locked ids after a sequence of payment requests over one fixed list of coins. */
  function LockedAfter(coins: seq<Coin>, locked: set<string>, reqs: seq<Request>): set<string>
    decreases |reqs|, 0
  {
    if reqs == [] then locked else
      LockedAfter(coins, locked, reqs[..|reqs| - 1]) + LockedBy(BuiltAt(coins, locked, reqs, |reqs| - 1))
  }

  function BuiltAt(coins: seq<Coin>, locked: set<string>, reqs: seq<Request>, i: nat): Result<Payment, BuildError>
    requires i < |reqs|
    decreases i, 1
  {
    Build(coins, LockedAfter(coins, locked, reqs[..i]), reqs[i].currency, reqs[i].amount)
  }

  predicate DistinctIds(coins: seq<Coin>) {
    forall i, j :: 0 <= i < j < |coins| ==> coins[i].id != coins[j].id
  }

  lemma ChosenIsFree(coins: seq<Coin>, locked: set<string>, currency: string, amount: Amount, c: Coin)
    requires c in Chosen(coins, locked, currency, amount)
    ensures c in coins && c.currency == currency && c.id !in locked
  {
    ChosenAreAvailable(coins, locked, currency, amount);
    assert c in multiset(Chosen(coins, locked, currency, amount));
    assert c in Available(coins, currency, locked);
  }

  lemma {:induction false} LocksGrow(coins: seq<Coin>, locked: set<string>, reqs: seq<Request>, i: nat)
    requires i < |reqs|
    ensures LockedBy(BuiltAt(coins, locked, reqs, i)) <= LockedAfter(coins, locked, reqs)
    decreases |reqs|
  {
    if i < |reqs| - 1 {
      LocksGrow(coins, locked, reqs[..|reqs| - 1], i);
      assert reqs[..|reqs| - 1][..i] == reqs[..i];
    }
  }

  /** No coin is promised to two payments. */
  lemma SelectionsDisjoint(coins: seq<Coin>, locked: set<string>, reqs: seq<Request>, i: nat, j: nat)
    requires i < j < |reqs|
    ensures LockedBy(BuiltAt(coins, locked, reqs, i)) !! LockedBy(BuiltAt(coins, locked, reqs, j))
  {
    var before := LockedAfter(coins, locked, reqs[..j]);
    LocksGrow(coins, locked, reqs[..j], i);
    assert reqs[..j][..i] == reqs[..i];
    forall id | id in LockedBy(BuiltAt(coins, locked, reqs, j)) ensures id !in before {
      var chosen := BuiltAt(coins, locked, reqs, j).value.chosen;
      var k :| 0 <= k < |chosen| && chosen[k].id == id;
      ChosenIsFree(coins, before, reqs[j].currency, reqs[j].amount, chosen[k]);
    }
  }

  // ---------- available and pending totals ----------

  lemma {:induction false} SplitTotals(cs: seq<Coin>, whole: Coin -> bool, p: Coin -> bool, q: Coin -> bool)
    requires forall c :: c in cs ==> whole(c) == (p(c) || q(c)) && !(p(c) && q(c))
    ensures Total(Keep(cs, whole)) == Total(Keep(cs, p)) + Total(Keep(cs, q))
  {
    if cs != [] {
      var n := |cs| - 1;
      assert cs == cs[..n] + [cs[n]];
      SplitTotals(cs[..n], whole, p, q);
      TotalSnoc(Keep(cs[..n], whole), cs[n]);
      TotalSnoc(Keep(cs[..n], p), cs[n]);
      TotalSnoc(Keep(cs[..n], q), cs[n]);
    }
  }

  function OfCurrency(currency: string): Coin -> bool {
    (c: Coin) => c.currency == currency
  }

  /** Whatever is locked, available and pending make up the whole balance; so building payments keeps their sum. */
  lemma AvailablePlusPending(coins: seq<Coin>, locked: set<string>, currency: string)
    ensures Total(Available(coins, currency, locked)) + Total(Pending(coins, currency, locked)) ==
            Total(Keep(coins, OfCurrency(currency)))
  {
    SplitTotals(coins, OfCurrency(currency), Free(currency, locked), Held(currency, locked));
  }

  lemma {:induction false} KeepDistinct(cs: seq<Coin>, p: Coin -> bool)
    requires DistinctIds(cs)
    ensures DistinctIds(Keep(cs, p))
  {
    if cs != [] {
      var front, last := cs[..|cs| - 1], cs[|cs| - 1];
      KeepDistinct(front, p);
      forall c | c in Keep(front, p) ensures c.id != last.id {
        var j :| 0 <= j < |front| && front[j] == c;
      }
    }
  }

  lemma {:induction false} DistinctOnce(cs: seq<Coin>, c: Coin)
    requires DistinctIds(cs)
    ensures multiset(cs)[c] <= 1
  {
    if cs != [] {
      var front, last := cs[..|cs| - 1], cs[|cs| - 1];
      assert cs == front + [last];
      DistinctOnce(front, c);
      assert c == last ==> c !in front;
    }
  }

  function TakenBy(currency: string, locked: set<string>, taken: set<string>): Coin -> bool {
    (c: Coin) => c.currency == currency && c.id !in locked && c.id in taken
  }

  lemma SameMembers(a: seq<Coin>, b: seq<Coin>)
    requires forall c :: multiset(a)[c] <= 1 && multiset(b)[c] <= 1
    requires forall c :: c in a <==> c in b
    ensures multiset(a) == multiset(b)
  {
    forall c ensures multiset(a)[c] == multiset(b)[c] {
      assert c in multiset(a) <==> c in a;
      assert c in multiset(b) <==> c in b;
    }
  }

  /** With distinct ids, the coins a payment locks are exactly the coins it chose. */
  lemma TakenAreChosen(coins: seq<Coin>, locked: set<string>, currency: string, amount: Amount, c: Coin)
    requires DistinctIds(coins)
    ensures var chosen := Chosen(coins, locked, currency, amount);
            c in chosen <==> c in coins && c.id !in locked && c.id in Elems(Ids(chosen))
  {
    var chosen := Chosen(coins, locked, currency, amount);
    if c in chosen {
      ChosenIsFree(coins, locked, currency, amount, c);
      var k :| 0 <= k < |chosen| && chosen[k] == c;
      assert Ids(chosen)[k] == c.id;
    } else if c in coins && c.id in Elems(Ids(chosen)) {
      var k :| 0 <= k < |chosen| && Ids(chosen)[k] == c.id;
      ChosenIsFree(coins, locked, currency, amount, chosen[k]);
    }
  }

  lemma ChosenOnce(coins: seq<Coin>, locked: set<string>, currency: string, amount: Amount, c: Coin)
    requires DistinctIds(coins)
    ensures multiset(Chosen(coins, locked, currency, amount))[c] <= 1
  {
    ChosenAreAvailable(coins, locked, currency, amount);
    KeepDistinct(coins, Free(currency, locked));
    DistinctOnce(Available(coins, currency, locked), c);
  }

  lemma HasMember(cs: seq<Coin>)
    ensures cs == [] || exists c :: c in cs
  {
    if cs != [] {
      assert cs[0] in cs;
    }
  }

  lemma TakenTotal(coins: seq<Coin>, locked: set<string>, currency: string, amount: Amount, c2: string)
    requires DistinctIds(coins)
    ensures var chosen := Chosen(coins, locked, currency, amount);
            Total(Keep(coins, TakenBy(c2, locked, Elems(Ids(chosen))))) == if c2 == currency then Total(chosen) else 0
  {
    var chosen := Chosen(coins, locked, currency, amount);
    var taken := Keep(coins, TakenBy(c2, locked, Elems(Ids(chosen))));
    forall c ensures c in taken <==> c in chosen && c2 == currency {
      TakenAreChosen(coins, locked, currency, amount, c);
      if c in chosen {
        ChosenIsFree(coins, locked, currency, amount, c);
      }
    }
    if c2 == currency {
      KeepDistinct(coins, TakenBy(c2, locked, Elems(Ids(chosen))));
      forall c ensures multiset(taken)[c] <= 1 && multiset(chosen)[c] <= 1 {
        DistinctOnce(taken, c);
        ChosenOnce(coins, locked, currency, amount, c);
      }
      SameMembers(taken, chosen);
      TotalOfMultiset(taken, chosen);
    } else {
      HasMember(taken);
    }
  }

  /** A built payment moves the coins it chose, and nothing else, from available to pending. */
  lemma BuildMovesChosen(coins: seq<Coin>, locked: set<string>, currency: string, amount: Amount, c2: string)
    requires DistinctIds(coins)
    ensures var chosen := Chosen(coins, locked, currency, amount);
            Total(Pending(coins, c2, locked + Elems(Ids(chosen)))) ==
            Total(Pending(coins, c2, locked)) + if c2 == currency then Total(chosen) else 0
  {
    var taken := Elems(Ids(Chosen(coins, locked, currency, amount)));
    SplitTotals(coins, Held(c2, locked + taken), Held(c2, locked), TakenBy(c2, locked, taken));
    TakenTotal(coins, locked, currency, amount, c2);
  }

  /** What the payments built for a sequence of requests tie up in a currency. */
  function Spent(coins: seq<Coin>, locked: set<string>, reqs: seq<Request>, currency: string): nat {
    if reqs == [] then 0 else
      var last := BuiltAt(coins, locked, reqs, |reqs| - 1);
      Spent(coins, locked, reqs[..|reqs| - 1], currency) +
      if last.Ok? && reqs[|reqs| - 1].currency == currency then Total(last.value.chosen) else 0
  }

  /** Over any sequence of requests, pending grows by exactly what the built payments chose. */
  lemma {:induction false} PendingIsSpent(coins: seq<Coin>, locked: set<string>, reqs: seq<Request>, currency: string)
    requires DistinctIds(coins)
    ensures Total(Pending(coins, currency, LockedAfter(coins, locked, reqs))) ==
            Total(Pending(coins, currency, locked)) + Spent(coins, locked, reqs, currency)
  {
    if reqs != [] {
      var front, r := reqs[..|reqs| - 1], reqs[|reqs| - 1];
      PendingIsSpent(coins, locked, front, currency);
      var before := LockedAfter(coins, locked, front);
      if BuiltAt(coins, locked, reqs, |reqs| - 1).Ok? {
        BuildMovesChosen(coins, before, r.currency, r.amount, currency);
      } else {
        assert before + {} == before;
      }
    }
  }

  // ---------- printed totals ----------

  ghost predicate PrintsExactly(coins: seq<Coin>, locked: set<string>, currency: string) {
    && Running(Available(coins, currency, locked)) == Total(Available(coins, currency, locked))
    && Running(Pending(coins, currency, locked)) == Total(Pending(coins, currency, locked))
  }

  lemma PrintedShort(a: string, b: string)
    ensures Total(Keep(Pair(a, b, 2), OfCurrency("INR"))) == LIMIT + 1 && !PrintsExactly(Pair(a, b, 2), {}, "INR")
  {
    PairKept(a, b, 2, OfCurrency("INR"));
    PairKept(a, b, 2, Free("INR", {}));
    PairTotals(a, b, 2);
    Round28JustAbove();
  }

  /** The balance command prints the true totals of every wallet worth at most bound, if and only if bound <= 10^28 cents. */
  lemma PrintedTotalsIff(bound: nat)
    ensures (forall coins, locked, currency :: Total(Keep(coins, OfCurrency(currency))) <= bound ==>
               PrintsExactly(coins, locked, currency)) <==> bound <= LIMIT
  {
    if bound <= LIMIT {
      forall coins, locked, currency | Total(Keep(coins, OfCurrency(currency))) <= bound
        ensures PrintsExactly(coins, locked, currency)
      {
        AvailablePlusPending(coins, locked, currency);
        RunningExact(Available(coins, currency, locked));
        RunningExact(Pending(coins, currency, locked));
      }
    } else {
      PrintedShort(ZERO_UUID, ONE_UUID);
    }
  }

  // ---------- a payment before the ledgers ----------

  /** The ledger tokens behind the chosen coins. */
  predicate Backs(fetched: seq<Utxo>, chosen: seq<Coin>) {
    |fetched| == |chosen| && forall i :: 0 <= i < |fetched| ==>
      fetched[i].amount == chosen[i].amount && fetched[i].currency == chosen[i].currency
  }

  /** The value and currency rules both ledgers impose. */
  predicate MeetsValueRules(fetched: seq<Utxo>, tx: Tx) {
    && Balanced(fetched, tx.outputs, tx.fee)
    && (forall i :: 0 <= i < |tx.outputs| ==> tx.outputs[i].amount > 0)
    && (forall i, j :: 0 <= i < |tx.outputs| && 0 <= j < |fetched| ==> tx.outputs[i].currency == fetched[j].currency)
  }

  lemma {:induction false} FirstInputErrorIs(c: Crypto, rules: Rules, txId: string, tx: Tx, fetched: seq<Utxo>, now: int, i: nat)
    requires i <= |fetched| == |tx.inputs|
    ensures var r := FirstInputError(c, rules, txId, tx, fetched, now, i);
            r.Some? ==> exists k :: i <= k < |fetched| && r == InputError(c, rules, txId, tx, fetched, now, k)
    decreases |fetched| - i
  {
    if i < |fetched| {
      FirstInputErrorIs(c, rules, txId, tx, fetched, now, i + 1);
    }
  }

  /** A transaction without a fee that meets the value rules can fail either ledger's validation only through an
      expired or locked token or a signature; one that does not meet them is accepted by neither. */
  lemma LedgersDecide(c: Crypto, rules: Rules, tx: Tx, fetched: seq<Utxo>, now: int)
    requires 0 < |fetched| == |tx.inputs| && tx.outputs != [] && tx.fee == 0
    ensures var e := IntentError(c, rules, TxId(c, tx), tx, fetched, now);
            && (MeetsValueRules(fetched, tx) ==> e in {None, Some(Expired), Some(Locked), Some(BadSignature)})
            && (PreCheck(c, rules, tx).None? && e.None? ==> MeetsValueRules(fetched, tx))
  {
    AcceptedIffSound(c, rules, tx, fetched, now);
    if MeetsValueRules(fetched, tx) {
      FirstInputErrorIs(c, rules, TxId(c, tx), tx, fetched, now, 0);
      assert tx.outputs[0].currency == fetched[0].currency;
    }
  }

  lemma SumShort(x: nat, y: nat)
    ensures DecSum([x]) == Round28(x) && DecSum([x, y]) == Round28(Round28(x) + y)
  {
    assert [x][..0] == [] && [x, y][..1] == [x];
    assert DecSum([x]) == Round28(DecSum([x][..0]) + x);
  }

  function Rest(p: Payment): nat {
    if p.change.Some? then p.change.value else 0
  }

  lemma OutputTotal(p: Payment, currency: string, merchant: string, me: string)
    requires p.paid < LIMIT
    ensures Round28(DecSum(OutAmounts(Outputs(p, currency, merchant, me)))) == Round28(p.paid + Rest(p))
  {
    var a := OutAmounts(Outputs(p, currency, merchant, me));
    SumShort(p.paid, Rest(p));
    assert a == if p.change.Some? then [p.paid, Rest(p)] else [p.paid];
    Round28Stays(p.paid + Rest(p));
  }

  lemma RulesOfParts(p: Payment, fetched: seq<Utxo>, id: string, currency: string, merchant: string, me: string)
    requires Backs(fetched, p.chosen) && p.paid < LIMIT
    requires forall i :: 0 <= i < |fetched| ==> fetched[i].currency == currency
    ensures MeetsValueRules(fetched, AsTx(p, id, currency, merchant, me)) <==>
            p.paid > 0 && (p.change.Some? ==> p.change.value > 0) && Round28(p.paid + Rest(p)) == Running(p.chosen)
  {
    var outs := Outputs(p, currency, merchant, me);
    assert InAmounts(fetched) == Amounts(p.chosen);
    OutputTotal(p, currency, merchant, me);
    assert outs[0].amount == p.paid;
    assert p.change.Some? ==> outs[1].amount == p.change.value;
  }

  lemma NearestPositive(n: nat, unit: nat)
    requires unit > 0
    ensures Nearest(n, unit) > 0 <==> 2 * n > unit
  {
    Division(n, unit);
    NextMultiple(0, n / unit, unit);
  }

  /** Totals past 10^28 are multiples of ten, so a cent more or less rounds back to them. */
  lemma RoundsBack(total: nat, d: int)
    requires total < 2 * LIMIT && Round28(total) == total && -1 <= d <= 1 && total + d >= 0
    ensures Round28(total + d) == total <==> d == 0 || total > LIMIT || (total == LIMIT && d == 1)
  {
    if total > LIMIT {
      assert UnitFor(total, 10) == 10 && UnitFor(total, 1) == 10;
      assert total == 10 * Nearest(total, 10);
      assert UnitFor(total + d, 10) == 10 && UnitFor(total + d, 1) == 10;
    } else {
      Round28JustAbove();
    }
  }

  /** What the amount must be for its outputs to stand, given the running total of the chosen coins: both outputs
      survive rounding to a cent, and together they drift from the total by nothing that the ledgers' sums show. */
  predicate RoundsWell(total: nat, amount: Amount)
    requires amount.digits >= 0 && Enough(total, amount)
  {
    var cent, d := amount.Cent(), Drift(total, amount.digits, amount.Cent());
    && 2 * amount.digits > cent
    && (LeavesChange(total, amount) ==> 2 * Round28(total * cent - amount.digits) > cent)
    && (d == 0 || total > LIMIT || (total == LIMIT && d == 1))
  }

  lemma NoChangeNoDrift(total: nat, amount: Amount)
    requires amount.digits == total * amount.Cent()
    ensures Paid(amount) == total && Drift(total, amount.digits, amount.Cent()) == 0
  {
    WholeIsNotHalf(total, amount.Cent());
    WholeIsNotHalf(0, amount.Cent());
  }

  lemma PartsAndTotal(total: nat, amount: Amount)
    requires amount.digits > 0 && Enough(total, amount) && Fits(total, amount)
    ensures Paid(amount) + (if LeavesChange(total, amount) then Change(total, amount) else 0) ==
            total + Drift(total, amount.digits, amount.Cent())
  {
    if LeavesChange(total, amount) {
      PartsDrift(total, amount.digits, amount.places);
    } else {
      NoChangeNoDrift(total, amount);
    }
  }

  lemma RulesOfTotal(total: nat, amount: Amount)
    requires amount.digits > 0 && Enough(total, amount) && Fits(total, amount) && Round28(total) == total
    ensures var rest := if LeavesChange(total, amount) then Change(total, amount) else 0;
            Paid(amount) > 0 && (LeavesChange(total, amount) ==> rest > 0) && Round28(Paid(amount) + rest) == total <==>
            RoundsWell(total, amount)
  {
    var rest := if LeavesChange(total, amount) then Change(total, amount) else 0;
    PartsAndTotal(total, amount);
    var d := Drift(total, amount.digits, amount.Cent());
    assert Paid(amount) + rest == total + d;
    RoundsBack(total, d);
    NearestPositive(amount.digits, amount.Cent());
    NearestPositive(Round28(total * amount.Cent() - amount.digits), amount.Cent());
  }

  /** A built payment meets the value rules of both ledgers exactly when its two parts round well. */
  lemma PaymentMeetsRulesIff(coins: seq<Coin>, locked: set<string>, currency: string, amount: Amount, fetched: seq<Utxo>,
                             id: string, merchant: string, me: string)
    requires Build(coins, locked, currency, amount).Ok?
    requires Backs(fetched, Chosen(coins, locked, currency, amount))
    ensures var p := Build(coins, locked, currency, amount).value;
            MeetsValueRules(fetched, AsTx(p, id, currency, merchant, me)) <==> RoundsWell(Running(p.chosen), amount)
  {
    var p := Build(coins, locked, currency, amount).value;
    RightCurrency(coins, locked, currency, amount, fetched);
    RulesOfParts(p, fetched, id, currency, merchant, me);
    DecSumStays(Amounts(p.chosen));
    RulesOfTotal(Running(p.chosen), amount);
  }

  lemma RightCurrency(coins: seq<Coin>, locked: set<string>, currency: string, amount: Amount, fetched: seq<Utxo>)
    requires Backs(fetched, Chosen(coins, locked, currency, amount))
    ensures forall i :: 0 <= i < |fetched| ==> fetched[i].currency == currency
  {
    var chosen := Chosen(coins, locked, currency, amount);
    forall i | 0 <= i < |fetched| ensures fetched[i].currency == currency {
      ChosenIsFree(coins, locked, currency, amount, chosen[i]);
    }
  }

  /** An amount of 29 decimals whose change, rounded to 28 digits, lands on half a cent and is then rounded away. */
  const SLIPPERY := Amount(9999 * (10 * LIMIT) + 5 * LIMIT - 1, 29)

  lemma SlipperyAmount()
    ensures SLIPPERY.Cent() == 10 * LIMIT && Enough(10000, SLIPPERY) && !RoundsWell(10000, SLIPPERY)
    ensures Paid(SLIPPERY) == 9999 && Change(10000, SLIPPERY) == 0
  {
    LimitIsPower();
    var rest := 5 * LIMIT + 1;
    assert UnitFor(rest, 10) == 10 && UnitFor(rest, 1) == 10;
    assert Round28(rest) == 5 * LIMIT;
  }

  /** Out of one coin of 100.00, under any id, the wallet builds that payment with an output of nothing;
      neither ledger takes it. */
  lemma SlipperyPayment(coinId: string, fetched: seq<Utxo>, id: string, merchant: string, me: string)
    requires Backs(fetched, [Coin(coinId, 10000, "INR")])
    ensures var coins := [Coin(coinId, 10000, "INR")];
            && Build(coins, {}, "INR", SLIPPERY) == Ok(Payment(coins, 9999, Some(0)))
            && !MeetsValueRules(fetched, AsTx(Payment(coins, 9999, Some(0)), id, "INR", merchant, me))
  {
    SlipperyAmount();
    var hundred := Coin(coinId, 10000, "INR");
    assert [] + [hundred] == [hundred] && [hundred][..0] == [];
    KeepSnoc([], hundred, Free("INR", {}));
    assert Sorted([hundred]) == [hundred];
    RunningSnoc([], hundred);
    assert Chosen([hundred], {}, "INR", SLIPPERY) == [hundred];
    PaymentMeetsRulesIff([hundred], {}, "INR", SLIPPERY, fetched, id, merchant, me);
  }

  ghost predicate WholeCents(amount: Amount) {
    exists cents: nat :: amount.digits == cents * amount.Cent()
  }

  lemma WholeChange(total: nat, amount: Amount, cents: nat)
    requires amount.digits == cents * amount.Cent() && amount.digits > 0 && Enough(total, amount) && Fits(total, amount)
    ensures cents <= total
    ensures var rest := total * amount.Cent() - amount.digits; rest == (total - cents) * amount.Cent() && Round28(rest) == rest
  {
    NextMultiple(total, cents, amount.Cent());
    var rest := total * amount.Cent() - amount.digits;
    assert rest == (total - cents) * amount.Cent();
    if LeavesChange(total, amount) {
      if total - cents > LIMIT {
        Times(LIMIT, total - cents, amount.Cent());
        Round28AtLeast(rest, LIMIT, amount.places);
        NearestAtLeast(Round28(rest), LIMIT, amount.Cent());
      }
      Round28AtLeast(rest, total - cents, amount.places);
      Round28AtMost(rest, total - cents, amount.places);
    }
  }

  lemma WholeRoundsWell(total: nat, amount: Amount)
    requires WholeCents(amount) && amount.digits > 0 && Enough(total, amount) && Fits(total, amount)
    ensures RoundsWell(total, amount)
  {
    var cents: nat :| amount.digits == cents * amount.Cent();
    WholeChange(total, amount, cents);
    WholeIsNotHalf(cents, amount.Cent());
    WholeIsNotHalf(total - cents, amount.Cent());
    NextMultiple(0, cents, amount.Cent());
    NextMultiple(0, total - cents, amount.Cent());
  }

  lemma InputsDistinct(coins: seq<Coin>, locked: set<string>, currency: string, amount: Amount, id: string, merchant: string, me: string)
    requires DistinctIds(coins) && Build(coins, locked, currency, amount).Ok?
    ensures NoDup(InputIds(AsTx(Build(coins, locked, currency, amount).value, id, currency, merchant, me)))
  {
    ChosenDistinct(coins, locked, currency, amount);
    var p := Build(coins, locked, currency, amount).value;
    assert InputIds(AsTx(p, id, currency, merchant, me)) == Ids(p.chosen);
  }

  /** Every payment built for a positive whole number of cents meets the value and currency rules of both ledgers,
      and of the shared model unless one of its tokens has expired. */
  lemma WholeCentPaymentsAreValid(coins: seq<Coin>, locked: set<string>, currency: string, amount: Amount, fetched: seq<Utxo>,
                                  id: string, merchant: string, me: string, now: int)
    requires DistinctIds(coins) && WholeCents(amount) && Build(coins, locked, currency, amount).Ok?
    requires Backs(fetched, Chosen(coins, locked, currency, amount))
    ensures var tx := AsTx(Build(coins, locked, currency, amount).value, id, currency, merchant, me);
            && MeetsValueRules(fetched, tx) && NoDup(InputIds(tx))
            && (EconomicCheck(tx, Offered(tx, fetched), now).None? <==> Alive(fetched, now))
  {
    PaymentMeetsRulesIff(coins, locked, currency, amount, fetched, id, merchant, me);
    WholeRoundsWell(Running(Chosen(coins, locked, currency, amount)), amount);
    InputsDistinct(coins, locked, currency, amount, id, merchant, me);
    ModelOfPayment(AsTx(Build(coins, locked, currency, amount).value, id, currency, merchant, me), fetched, now);
  }

  lemma SomethingChosen(coins: seq<Coin>, locked: set<string>, currency: string, amount: Amount)
    requires Build(coins, locked, currency, amount).Ok?
    ensures Chosen(coins, locked, currency, amount) != []
  {
    assert Running([]) == 0;
  }

  /** So either ledger's validation, given the tokens behind such a payment, can object only to an expired or locked
      token or to a signature. */
  lemma WholeCentVerdict(coins: seq<Coin>, locked: set<string>, currency: string, amount: Amount, fetched: seq<Utxo>,
                         id: string, merchant: string, me: string, now: int, c: Crypto, rules: Rules)
    requires DistinctIds(coins) && WholeCents(amount) && Build(coins, locked, currency, amount).Ok?
    requires Backs(fetched, Chosen(coins, locked, currency, amount))
    ensures var tx := AsTx(Build(coins, locked, currency, amount).value, id, currency, merchant, me);
            0 < |fetched| == |tx.inputs| &&
            IntentError(c, rules, TxId(c, tx), tx, fetched, now) in {None, Some(Expired), Some(Locked), Some(BadSignature)}
  {
    var tx := AsTx(Build(coins, locked, currency, amount).value, id, currency, merchant, me);
    SomethingChosen(coins, locked, currency, amount);
    WholeCentPaymentsAreValid(coins, locked, currency, amount, fetched, id, merchant, me, now);
    LedgersDecide(c, rules, tx, fetched, now);
  }

  /** The digest does not depend on the id a transaction carries. */
  lemma DigestIgnoresId(c: Crypto, p: Payment, id: string, id2: string, currency: string, merchant: string, me: string)
    ensures TxId(c, AsTx(p, id, currency, merchant, me)) == TxId(c, AsTx(p, id2, currency, merchant, me))
  {
    CanonicalIff(AsTx(p, id, currency, merchant, me), AsTx(p, id2, currency, merchant, me));
  }

  lemma OutputsPositive(p: Payment, id: string, currency: string, merchant: string, me: string)
    requires p.paid > 0 && (p.change.Some? ==> p.change.value > 0)
    ensures var tx := AsTx(p, id, currency, merchant, me);
            1 <= |tx.outputs| <= 2 && forall i :: 0 <= i < |tx.outputs| ==> tx.outputs[i].amount > 0
  {
  }

  lemma PreCheckOfTx(c: Crypto, rules: Rules, tx: Tx)
    requires tx.inputs != [] && 1 <= |tx.outputs| <= 2 && tx.fee == 0 && NoDup(InputIds(tx))
    requires forall i :: 0 <= i < |tx.outputs| ==> tx.outputs[i].amount > 0
    ensures PreCheck(c, rules, tx).None? <==> |tx.inputs| <= MAX_TX_INPUTS && IdCheck(c, tx).None?
  {
  }

  /** The checks that come before validation pass a payment for whole cents if and only if it takes at most 100 coins
      and carries no id or the digest itself. */
  lemma WholeCentPreCheckIff(coins: seq<Coin>, locked: set<string>, currency: string, amount: Amount,
                             id: string, merchant: string, me: string, c: Crypto, rules: Rules)
    requires DistinctIds(coins) && WholeCents(amount) && Build(coins, locked, currency, amount).Ok?
    ensures var p := Build(coins, locked, currency, amount).value; var tx := AsTx(p, id, currency, merchant, me);
            PreCheck(c, rules, tx).None? <==> |p.chosen| <= MAX_TX_INPUTS && (id == "" || id == TxId(c, tx))
  {
    var p := Build(coins, locked, currency, amount).value;
    var tx := AsTx(p, id, currency, merchant, me);
    SomethingChosen(coins, locked, currency, amount);
    WholeParts(coins, locked, currency, amount);
    OutputsPositive(p, id, currency, merchant, me);
    InputsDistinct(coins, locked, currency, amount, id, merchant, me);
    PreCheckOfTx(c, rules, tx);
  }

  lemma WholeParts(coins: seq<Coin>, locked: set<string>, currency: string, amount: Amount)
    requires WholeCents(amount) && Build(coins, locked, currency, amount).Ok?
    ensures var p := Build(coins, locked, currency, amount).value; p.paid > 0 && (p.change.Some? ==> p.change.value > 0)
  {
    var total := Running(Chosen(coins, locked, currency, amount));
    WholeRoundsWell(total, amount);
    DecSumStays(Amounts(Chosen(coins, locked, currency, amount)));
    RulesOfTotal(total, amount);
  }

  /** Where digests have 64 characters, both ledgers refuse every payment as it is built, because it carries a UUID. */
  lemma BuiltIdRefused(p: Payment, id: string, currency: string, merchant: string, me: string, c: Crypto, rules: Rules)
    requires IsUuid4(id) && |TxId(c, AsTx(p, id, currency, merchant, me))| == 64
    ensures PreCheck(c, rules, AsTx(p, id, currency, merchant, me)).Some?
  {
  }

  lemma ModelOfPayment(tx: Tx, fetched: seq<Utxo>, now: int)
    requires |fetched| == |tx.inputs| && NoDup(InputIds(tx)) && tx.outputs != [] && MeetsValueRules(fetched, tx)
    ensures EconomicCheck(tx, Offered(tx, fetched), now).None? <==> Alive(fetched, now)
  {
    ModelAccepts(tx, fetched, now);
  }

  lemma ChosenDistinct(coins: seq<Coin>, locked: set<string>, currency: string, amount: Amount)
    requires DistinctIds(coins)
    ensures NoDup(Ids(Chosen(coins, locked, currency, amount)))
  {
    var chosen := Chosen(coins, locked, currency, amount);
    forall i, j | 0 <= i < j < |chosen| ensures chosen[i].id != chosen[j].id {
      ChosenIsFree(coins, locked, currency, amount, chosen[i]);
      ChosenIsFree(coins, locked, currency, amount, chosen[j]);
      ChosenOnce(coins, locked, currency, amount, chosen[i]);
      TwiceCounted(chosen, i, j);
    }
  }

  lemma TwiceCounted(cs: seq<Coin>, i: nat, j: nat)
    requires i < j < |cs|
    ensures cs[i] == cs[j] ==> multiset(cs)[cs[i]] >= 2
  {
    assert cs == cs[..j] + [cs[j]] + cs[j + 1..];
    assert cs[..j][i] == cs[i];
    assert cs[i] in multiset(cs[..j]);
  }
}
