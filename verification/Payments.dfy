/** Whom a transaction pays: the balances of all owners before and after, in terms of its inputs and outputs. */
module Payments {
  import opened Prelude
  import opened TxRules
  import opened Tokens

  /** What outputs give an owner in a currency. */
  function Received(outs: seq<Output>, owner: string, currency: string): int {
    if outs == [] then 0 else
      var o := outs[|outs| - 1];
      Received(outs[..|outs| - 1], owner, currency) + if o.owner == owner && o.currency == currency then o.amount else 0
  }

  /** What the owner's balance, read at a time, loses with the tokens of the given ids. */
  function Given(t: Tokens, ids: seq<string>, owner: string, currency: string, at: int): nat {
    if ids == [] then 0 else
      Given(t, ids[..|ids| - 1], owner, currency, at) + Worth(t, ids[|ids| - 1], owner, currency, at)
  }

  /** One token's share of a balance. */
  function Worth(t: Tokens, id: string, owner: string, currency: string, at: int): nat {
    if id in t && t[id].owner == owner && t[id].currency == currency && (t[id].expiresAt.None? || at < t[id].expiresAt.value)
    then t[id].amount else 0
  }

  /** The currency of the inputs, in which a fee is paid. */
  function TheirCurrency(t: Tokens, tx: Tx): string {
    if tx.inputs == [] || tx.inputs[0].tokenId !in t then "" else t[tx.inputs[0].tokenId].currency
  }

  function FeeTo(tx: Tx, feeCollector: string, theirs: string, owner: string, currency: string): int {
    if owner == feeCollector && currency == theirs then tx.fee else 0
  }

  /** What one transaction moves for an owner: in comes what is made out to it, and the fee if it is the collector;
      out go its inputs. */
  function Moves(t: Tokens, tx: Tx, feeCollector: string, owner: string, currency: string, at: int): int {
    Received(tx.outputs, owner, currency) + FeeTo(tx, feeCollector, TheirCurrency(t, tx), owner, currency)
    - Given(t, InputIds(tx), owner, currency, at)
  }

  /** The payment law, for every owner, every currency and every time of reading. */
  ghost predicate PaysOut(t: Tokens, t': Tokens, tx: Tx, feeCollector: string) {
    forall owner, currency, at {:trigger Balance(t', owner, currency, at)} ::
      Balance(t', owner, currency, at) == Balance(t, owner, currency, at) + Moves(t, tx, feeCollector, owner, currency, at)
  }

  /** The new tokens: one for each output as the output says, without expiry, and one for the fee. */
  ghost predicate Issues(t: Tokens, t': Tokens, tx: Tx, feeCollector: string, ids: seq<string>) {
    && |ids| == |tx.outputs| + (if tx.fee > 0 then 1 else 0)
    && t'.Keys == t.Keys - Elems(InputIds(tx)) + Elems(ids)
    && (forall id :: id in t' && id !in ids ==> id in t && t'[id] == t[id])
    && (forall i :: 0 <= i < |tx.outputs| ==> ids[i] in t' && IsFor(t'[ids[i]], tx.outputs[i]))
    && (tx.fee > 0 ==> ids[|tx.outputs|] in t' && t'[ids[|tx.outputs|]] == Utxo(tx.fee, TheirCurrency(t, tx), feeCollector, "", None))
  }

  predicate IsFor(u: Utxo, o: Output) {
    u.amount == o.amount && u.currency == o.currency && u.owner == o.owner && u.lockScript == o.lockScript && u.expiresAt == None
  }

  // ---------- balances, one token at a time ----------

  lemma BalanceOfAdded(t: Tokens, id: string, u: Utxo, owner: string, currency: string, at: int)
    requires id !in t
    ensures Balance(t[id := u], owner, currency, at) ==
            Balance(t, owner, currency, at) + Worth(t[id := u], id, owner, currency, at)
  {
    var t' := t[id := u];
    var w, w' := BalanceWeight(t, owner, currency, at), BalanceWeight(t', owner, currency, at);
    SetSumRemove(t'.Keys, w', id);
    assert t'.Keys - {id} == t.Keys;
    SetSumCongruent(t.Keys, w', w);
  }

  lemma BalanceOfRemoved(t: Tokens, id: string, owner: string, currency: string, at: int)
    requires id in t
    ensures Balance(t - {id}, owner, currency, at) == Balance(t, owner, currency, at) - Worth(t, id, owner, currency, at)
  {
    assert (t - {id})[id := t[id]] == t;
    BalanceOfAdded(t - {id}, id, t[id], owner, currency, at);
  }

  lemma BalanceOfNothing(owner: string, currency: string, at: int)
    ensures Balance(map[], owner, currency, at) == 0
  {
  }

  ghost function Expiring(t: Tokens, owner: string, currency: string, at: int, later: int): string -> int {
    id => if id in t && t[id].owner == owner && t[id].currency == currency && t[id].expiresAt.Some?
             && at < t[id].expiresAt.value <= later then t[id].amount else 0
  }

  /** Time only takes from a balance, exactly what expires on the way. */
  lemma BalanceLater(t: Tokens, owner: string, currency: string, at: int, later: int)
    requires at <= later
    ensures Balance(t, owner, currency, at) ==
            Balance(t, owner, currency, later) + SetSum(t.Keys, Expiring(t, owner, currency, at, later))
  {
    SetSumAdd(t.Keys, BalanceWeight(t, owner, currency, later), Expiring(t, owner, currency, at, later),
              BalanceWeight(t, owner, currency, at));
  }

  // ---------- the law ----------

  function Holding(us: seq<Utxo>, owner: string, currency: string): nat {
    if us == [] then 0 else
      var u := us[|us| - 1];
      Holding(us[..|us| - 1], owner, currency) + if u.owner == owner && u.currency == currency then u.amount else 0
  }

  lemma {:induction false} BalanceOfPut(t: Tokens, ids: seq<string>, us: seq<Utxo>, owner: string, currency: string, at: int)
    requires |ids| == |us| && NoDup(ids) && (forall id :: id in ids ==> id !in t)
    requires forall i :: 0 <= i < |us| ==> us[i].expiresAt.None?
    ensures Balance(Put(t, ids, us), owner, currency, at) == Balance(t, owner, currency, at) + Holding(us, owner, currency)
  {
    if ids != [] {
      var n := |ids| - 1;
      BalanceOfPut(t, ids[..n], us[..n], owner, currency, at);
      PutAt(t, ids[..n], us[..n]);
      ElemsSplit(ids);
      assert ids[n] !in ids[..n];
      BalanceOfAdded(Put(t, ids[..n], us[..n]), ids[n], us[n], owner, currency, at);
    }
  }

  lemma {:induction false} BalanceOfTaken(t: Tokens, ids: seq<string>, owner: string, currency: string, at: int)
    requires NoDup(ids) && forall id :: id in ids ==> id in t
    ensures Balance(t - Elems(ids), owner, currency, at) == Balance(t, owner, currency, at) - Given(t, ids, owner, currency, at)
  {
    if ids == [] {
      assert t - Elems(ids) == t;
    } else {
      var n := |ids| - 1;
      ElemsSplit(ids);
      BalanceOfTaken(t, ids[..n], owner, currency, at);
      assert ids[n] !in ids[..n];
      BalanceOfRemoved(t - Elems(ids[..n]), ids[n], owner, currency, at);
      assert t - Elems(ids[..n]) - {ids[n]} == t - Elems(ids);
    }
  }

  lemma {:induction false} HoldingOfOutputs(outs: seq<Output>, us: seq<Utxo>, owner: string, currency: string)
    requires |us| == |outs| && forall i :: 0 <= i < |outs| ==>
      outs[i].amount == us[i].amount && outs[i].currency == us[i].currency && outs[i].owner == us[i].owner
    ensures Holding(us, owner, currency) == Received(outs, owner, currency)
  {
    if outs != [] {
      HoldingOfOutputs(outs[..|outs| - 1], us[..|us| - 1], owner, currency);
    }
  }

  lemma HoldingOfMade(tx: Tx, feeCollector: string, theirs: string, owner: string, currency: string)
    requires tx.fee >= 0 && forall i :: 0 <= i < |tx.outputs| ==> tx.outputs[i].amount > 0
    ensures Holding(Made(tx, feeCollector, theirs), owner, currency) ==
            Received(tx.outputs, owner, currency) + FeeTo(tx, feeCollector, theirs, owner, currency)
    ensures forall i :: 0 <= i < |Made(tx, feeCollector, theirs)| ==> Made(tx, feeCollector, theirs)[i].expiresAt.None?
  {
    var us := Made(tx, feeCollector, theirs);
    HoldingOfOutputs(tx.outputs, us[..|tx.outputs|], owner, currency);
    if tx.fee == 0 {
      assert us[..|tx.outputs|] == us;
    }
  }

  /** Being admitted, in declarative terms: inputs that are all there, and a sound transaction. */
  lemma AdmitsIff(c: Crypto, rules: Rules, t: Tokens, tx: Tx, now: int)
    ensures Admits(c, rules, t, tx, now) <==>
            tx.inputs != [] && (forall i :: 0 <= i < |tx.inputs| ==> tx.inputs[i].tokenId in t) && Sound(c, rules, tx, Fetched(t, tx), now)
  {
    PresentIff(t, tx);
    if tx.inputs != [] && Present(t, tx) {
      AcceptedIffSound(c, rules, tx, Fetched(t, tx), now);
    }
  }

  lemma PresentIff(t: Tokens, tx: Tx)
    ensures Present(t, tx) <==> forall i :: 0 <= i < |tx.inputs| ==> tx.inputs[i].tokenId in t
  {
    assert forall i :: 0 <= i < |tx.inputs| ==> InputIds(tx)[i] == tx.inputs[i].tokenId && InputIds(tx)[i] in InputIds(tx);
  }

  /** What an admitted transaction leaves obeys the payment law. */
  lemma AdmittedPays(c: Crypto, rules: Rules, t: Tokens, tx: Tx, now: int, feeCollector: string, ids: seq<string>)
    requires Admits(c, rules, t, tx, now) && |ids| == IdsNeeded(tx) && FreshIds(ids, t.Keys)
    ensures PaysOut(t, After(t, tx, feeCollector, Fetched(t, tx)[0].currency, ids), tx, feeCollector)
    ensures Issues(t, After(t, tx, feeCollector, Fetched(t, tx)[0].currency, ids), tx, feeCollector, ids)
  {
    AcceptedIffSound(c, rules, tx, Fetched(t, tx), now);
    SoundIssues(t, tx, feeCollector, Fetched(t, tx)[0].currency, ids);
    SoundPays(t, tx, feeCollector, Fetched(t, tx)[0].currency, ids);
  }

  lemma SoundIssues(t: Tokens, tx: Tx, feeCollector: string, theirs: string, ids: seq<string>)
    requires tx.inputs != [] && Present(t, tx) && theirs == TheirCurrency(t, tx)
    requires tx.fee >= 0 && forall i :: 0 <= i < |tx.outputs| ==> tx.outputs[i].amount > 0
    requires |ids| == IdsNeeded(tx) && FreshIds(ids, t.Keys)
    ensures Issues(t, After(t, tx, feeCollector, theirs, ids), tx, feeCollector, ids)
  {
    AfterAt(t, tx, feeCollector, theirs, ids, t.Keys);
  }

  lemma SoundPays(t: Tokens, tx: Tx, feeCollector: string, theirs: string, ids: seq<string>)
    requires tx.inputs != [] && Present(t, tx) && theirs == TheirCurrency(t, tx) && NoDup(InputIds(tx))
    requires tx.fee >= 0 && forall i :: 0 <= i < |tx.outputs| ==> tx.outputs[i].amount > 0
    requires |ids| == IdsNeeded(tx) && FreshIds(ids, t.Keys)
    ensures PaysOut(t, After(t, tx, feeCollector, theirs, ids), tx, feeCollector)
  {
    var ins := InputIds(tx);
    forall owner, currency, at
      ensures Balance(After(t, tx, feeCollector, theirs, ids), owner, currency, at) ==
              Balance(t, owner, currency, at) + Moves(t, tx, feeCollector, owner, currency, at)
    {
      BalanceOfTaken(t, ins, owner, currency, at);
      HoldingOfMade(tx, feeCollector, theirs, owner, currency);
      BalanceOfPut(t - Elems(ins), ids, Made(tx, feeCollector, theirs), owner, currency, at);
    }
  }
}
