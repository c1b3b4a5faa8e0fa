/** Whom a wallet payment pays, and what arrives once a ledger applies it. */
module Payees {
  import opened Decimal
  import opened Rounding
  import opened TxRules
  import opened Tokens
  import opened Payments
  import opened Wallet
  import opened WalletRuns

  lemma ReceivedOfOne(o: Output, owner: string, currency: string)
    ensures Received([o], owner, currency) == if o.owner == owner && o.currency == currency then o.amount else 0
  {
    assert [o][..0] == [];
  }

  lemma ReceivedOfTwo(a: Output, b: Output, owner: string, currency: string)
    ensures Received([a, b], owner, currency) == Received([a], owner, currency) + Received([b], owner, currency)
  {
    assert [a, b][..1] == [a];
    ReceivedOfOne(b, owner, currency);
  }

  lemma ReceivedOfPayment(p: Payment, currency: string, merchant: string, me: string, owner: string, c: string)
    ensures Received(Outputs(p, currency, merchant, me), owner, c) ==
            (if owner == merchant && c == currency then p.paid else 0) + (if owner == me && c == currency then Rest(p) else 0)
  {
    var a := Output(p.paid, currency, merchant, "");
    ReceivedOfOne(a, owner, c);
    if p.change.Some? {
      var b := Output(p.change.value, currency, me, "");
      ReceivedOfOne(b, owner, c);
      ReceivedOfTwo(a, b, owner, c);
      assert Outputs(p, currency, merchant, me) == [a, b];
    } else {
      assert Outputs(p, currency, merchant, me) == [a];
    }
  }

  lemma PartsOfTotal(total: nat, amount: Amount, cents: nat)
    requires amount.digits == cents * amount.Cent() && amount.digits > 0 && Enough(total, amount) && Fits(total, amount)
    ensures cents <= total && Paid(amount) == cents
    ensures if LeavesChange(total, amount) then Change(total, amount) == total - cents else total == cents
  {
    WholeChange(total, amount, cents);
    WholeIsNotHalf(cents, amount.Cent());
    WholeIsNotHalf(total - cents, amount.Cent());
    NextMultiple(cents, total, amount.Cent());
  }

  lemma PartsOfWhole(coins: seq<Coin>, locked: set<string>, currency: string, amount: Amount, cents: nat)
    requires Build(coins, locked, currency, amount).Ok? && amount.digits == cents * amount.Cent()
    ensures var p := Build(coins, locked, currency, amount).value;
            p.chosen == Chosen(coins, locked, currency, amount) && p.paid == cents && Rest(p) == Running(p.chosen) - cents
  {
    PartsOfTotal(Running(Chosen(coins, locked, currency, amount)), amount, cents);
  }

  /** A payment for whole cents: the merchant is paid these cents, the payer gets back what the chosen coins leave, and
      no one else is paid, in any currency; there is no fee and no lock script. */
  ghost predicate PaysMerchant(tx: Tx, total: nat, cents: nat, currency: string, merchant: string, me: string) {
    && (forall owner, c {:trigger Received(tx.outputs, owner, c)} :: Received(tx.outputs, owner, c) ==
          if c != currency || (owner != merchant && owner != me) then 0
          else if merchant == me then total
          else if owner == merchant then cents
          else total - cents)
    && (forall o :: o in tx.outputs ==> o.lockScript == "") && tx.fee == 0
  }

  lemma {:induction false} WholeCentsArePaid(coins: seq<Coin>, locked: set<string>, currency: string, amount: Amount, cents: nat,
                                             merchant: string, me: string, id: string)
    requires BuildTx(coins, locked, currency, amount, merchant, me, id).Ok? && amount.digits == cents * amount.Cent()
    ensures var tx, chosen := BuildTx(coins, locked, currency, amount, merchant, me, id).value, Chosen(coins, locked, currency, amount);
            && InputIds(tx) == Ids(chosen) && cents <= Running(chosen)
            && PaysMerchant(tx, Running(chosen), cents, currency, merchant, me)
            && (Total(chosen) <= LIMIT ==> Running(chosen) == Total(chosen))
  {
    var p := Build(coins, locked, currency, amount).value;
    var tx := AsTx(p, id, currency, merchant, me);
    PartsOfWhole(coins, locked, currency, amount, cents);
    RunningExact(p.chosen);
    assert InputIds(tx) == Ids(p.chosen);
    forall owner, c ensures Received(tx.outputs, owner, c) ==
      (if owner == merchant && c == currency then p.paid else 0) + (if owner == me && c == currency then Rest(p) else 0)
    {
      ReceivedOfPayment(p, currency, merchant, me, owner, c);
    }
  }

  // ---------- what arrives ----------

  /** A transaction as signed: the one built, with any id and signatures. */
  ghost predicate SignedForm(signed: Tx, built: Tx) {
    signed.outputs == built.outputs && InputIds(signed) == InputIds(built) && signed.fee == built.fee
  }

  lemma {:induction false} GivesNothing(t: Tokens, ids: seq<string>, owner: string, currency: string, at: int)
    requires forall id :: id in ids && id in t ==> t[id].owner != owner
    ensures Given(t, ids, owner, currency, at) == 0
  {
    if ids != [] {
      assert ids[|ids| - 1] in ids;
      GivesNothing(t, ids[..|ids| - 1], owner, currency, at);
    }
  }

  /** A ledger holds each coin as an unexpired token of the payer. */
  predicate Holds(t: Tokens, coins: seq<Coin>, me: string, at: int) {
    forall i :: 0 <= i < |coins| ==>
      var c := coins[i];
      && c.id in t && t[c.id].owner == me && t[c.id].amount == c.amount && t[c.id].currency == c.currency
      && (t[c.id].expiresAt.None? || at < t[c.id].expiresAt.value)
  }

  lemma {:induction false} GivesCoins(t: Tokens, coins: seq<Coin>, me: string, currency: string, at: int)
    requires Holds(t, coins, me, at) && forall c :: c in coins ==> c.currency == currency
    ensures Given(t, Ids(coins), me, currency, at) == Total(coins)
  {
    if coins != [] {
      var n := |coins| - 1;
      assert coins == coins[..n] + [coins[n]] && Ids(coins)[..n] == Ids(coins[..n]) && coins[n] in coins;
      GivesCoins(t, coins[..n], me, currency, at);
      TotalSnoc(coins[..n], coins[n]);
    }
  }

  lemma NoFeeMoves(t: Tokens, signed: Tx, feeCollector: string, owner: string, currency: string, at: int)
    requires signed.fee == 0
    ensures Moves(t, signed, feeCollector, owner, currency, at) ==
            Received(signed.outputs, owner, currency) - Given(t, InputIds(signed), owner, currency, at)
  {
  }

  /** Applying a payment raises the merchant's balance by the cents asked for and touches no third party, provided the
      inputs are the payer's. */
  lemma PaymentArrives(coins: seq<Coin>, locked: set<string>, currency: string, amount: Amount, cents: nat, merchant: string,
                       me: string, id: string, signed: Tx, t: Tokens, t': Tokens, feeCollector: string, at: int)
    requires BuildTx(coins, locked, currency, amount, merchant, me, id).Ok? && amount.digits == cents * amount.Cent()
    requires merchant != me && SignedForm(signed, BuildTx(coins, locked, currency, amount, merchant, me, id).value)
    requires PaysOut(t, t', signed, feeCollector)
    requires forall i :: i in InputIds(signed) && i in t ==> t[i].owner == me
    ensures Balance(t', merchant, currency, at) == Balance(t, merchant, currency, at) + cents
    ensures forall owner, c :: owner != me && (owner != merchant || c != currency) ==>
              Balance(t', owner, c, at) == Balance(t, owner, c, at)
  {
    WholeCentsArePaid(coins, locked, currency, amount, cents, merchant, me, id);
    forall owner, c | owner != me
      ensures Balance(t', owner, c, at) == Balance(t, owner, c, at) + if owner == merchant && c == currency then cents else 0
    {
      GivesNothing(t, InputIds(signed), owner, c, at);
      NoFeeMoves(t, signed, feeCollector, owner, c, at);
      assert Balance(t', owner, c, at) == Balance(t, owner, c, at) + Moves(t, signed, feeCollector, owner, c, at);
    }
  }

  /** ... and takes exactly those cents from the payer, if the chosen coins are what the ledger holds and stay within
      10^28 cents. */
  lemma PayerPays(coins: seq<Coin>, locked: set<string>, currency: string, amount: Amount, cents: nat, merchant: string,
                  me: string, id: string, signed: Tx, t: Tokens, t': Tokens, feeCollector: string, at: int)
    requires BuildTx(coins, locked, currency, amount, merchant, me, id).Ok? && amount.digits == cents * amount.Cent()
    requires merchant != me && SignedForm(signed, BuildTx(coins, locked, currency, amount, merchant, me, id).value)
    requires PaysOut(t, t', signed, feeCollector)
    requires Holds(t, Chosen(coins, locked, currency, amount), me, at) && Total(Chosen(coins, locked, currency, amount)) <= LIMIT
    ensures Balance(t', me, currency, at) == Balance(t, me, currency, at) - cents
  {
    var chosen := Chosen(coins, locked, currency, amount);
    WholeCentsArePaid(coins, locked, currency, amount, cents, merchant, me, id);
    forall c | c in chosen ensures c.currency == currency {
      ChosenIsFree(coins, locked, currency, amount, c);
    }
    GivesCoins(t, chosen, me, currency, at);
    NoFeeMoves(t, signed, feeCollector, me, currency, at);
    assert Balance(t', me, currency, at) == Balance(t, me, currency, at) + Moves(t, signed, feeCollector, me, currency, at);
  }
}
