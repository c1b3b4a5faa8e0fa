/** The shared transaction model's own economic check, and how it compares with the ledgers' validation. */
module CoreModels {
  import opened Prelude
  import opened Decimal
  import opened TxRules

  /** A token offered to back an input. */
  datatype Backing = Backing(tokenId: string, utxo: Utxo)

  datatype EconomicError = CountMismatch | NotBacked | WrongCurrency | ExpiredInput | NotConserved

  /** The token a dictionary built from the list holds under an id: the last one wins. */
  function Lookup(backings: seq<Backing>, id: string): Option<Utxo> {
    if backings == [] then None
    else
      var last := backings[|backings| - 1];
      if last.tokenId == id then Some(last.utxo) else Lookup(backings[..|backings| - 1], id)
  }

  function BackingError(u: Option<Utxo>, currency: string, now: int): Option<EconomicError> {
    if u.None? then Some(NotBacked)
    else if u.value.currency != currency then Some(WrongCurrency)
    else if u.value.expiresAt.Some? && u.value.expiresAt.value <= now then Some(ExpiredInput)
    else None
  }

  function FirstBackingError(tx: Tx, backings: seq<Backing>, now: int, i: nat): (r: Option<EconomicError>)
    requires i <= |tx.inputs| && tx.outputs != []
    ensures r.None? <==> forall k :: i <= k < |tx.inputs| ==>
      BackingError(Lookup(backings, tx.inputs[k].tokenId), tx.outputs[0].currency, now).None?
    decreases |tx.inputs| - i
  {
    if i == |tx.inputs| then None else
      var e := BackingError(Lookup(backings, tx.inputs[i].tokenId), tx.outputs[0].currency, now);
      if e.Some? then e else FirstBackingError(tx, backings, now, i + 1)
  }

  /** The backing tokens in the order of the inputs. */
  function Backed(tx: Tx, backings: seq<Backing>): seq<Utxo>
    requires forall k :: 0 <= k < |tx.inputs| ==> Lookup(backings, tx.inputs[k].tokenId).Some?
  {
    seq(|tx.inputs|, k requires 0 <= k < |tx.inputs| => Lookup(backings, tx.inputs[k].tokenId).value)
  }

  function EconomicCheck(tx: Tx, backings: seq<Backing>, now: int): Option<EconomicError>
    requires tx.outputs != []
  {
    if |backings| != |tx.inputs| then Some(CountMismatch)
    else
      var e := FirstBackingError(tx, backings, now, 0);
      if e.Some? then e
      else if !Balanced(Backed(tx, backings), tx.outputs, tx.fee) then Some(NotConserved)
      else None
  }

  // ---------- which error is reported ----------

  /** The list's last token under an id. */
  predicate LastUnder(backings: seq<Backing>, id: string, i: int) {
    0 <= i < |backings| && backings[i].tokenId == id && forall j :: i < j < |backings| ==> backings[j].tokenId != id
  }

  lemma {:induction false} LookupIff(backings: seq<Backing>, id: string)
    ensures var u := Lookup(backings, id);
            if u.Some? then exists i :: LastUnder(backings, id, i) && backings[i].utxo == u.value
            else forall i :: 0 <= i < |backings| ==> backings[i].tokenId != id
  {
    if backings != [] {
      var n := |backings| - 1;
      LookupIff(backings[..n], id);
      if backings[n].tokenId == id {
        assert LastUnder(backings, id, n);
      } else if Lookup(backings, id).Some? {
        var i :| LastUnder(backings[..n], id, i) && backings[..n][i].utxo == Lookup(backings, id).value;
        assert LastUnder(backings, id, i);
      }
    }
  }

  /** What is wrong with the token behind an input; each presupposes that the ones before it do not apply. */
  predicate BackingWrong(u: Option<Utxo>, currency: string, now: int, e: EconomicError) {
    match e
    case NotBacked => u.None?
    case WrongCurrency => u.Some? && u.value.currency != currency
    case ExpiredInput => u.Some? && u.value.currency == currency && u.value.expiresAt.Some? && u.value.expiresAt.value <= now
    case _ => false
  }

  predicate BackingRight(u: Option<Utxo>, currency: string, now: int) {
    u.Some? && u.value.currency == currency && (u.value.expiresAt.Some? ==> now < u.value.expiresAt.value)
  }

  ghost predicate FirstWrongBacking(tx: Tx, backings: seq<Backing>, now: int, from: nat, i: nat, e: EconomicError)
    requires tx.outputs != []
  {
    && from <= i < |tx.inputs| && BackingWrong(Lookup(backings, tx.inputs[i].tokenId), tx.outputs[0].currency, now, e)
    && forall j :: from <= j < i ==> BackingRight(Lookup(backings, tx.inputs[j].tokenId), tx.outputs[0].currency, now)
  }

  lemma {:induction false} FirstBackingIs(tx: Tx, backings: seq<Backing>, now: int, from: nat, i: nat, e: EconomicError)
    requires tx.outputs != [] && FirstWrongBacking(tx, backings, now, from, i, e)
    ensures FirstBackingError(tx, backings, now, from) == Some(e)
    decreases i - from
  {
    if from < i {
      FirstBackingIs(tx, backings, now, from + 1, i, e);
    }
  }

  /** The check reports a wrong count, else the first wrong token, else value that is not conserved. */
  lemma EconomicCheckReports(tx: Tx, backings: seq<Backing>, now: int)
    requires tx.outputs != []
    ensures var r := EconomicCheck(tx, backings, now);
            if |backings| != |tx.inputs| then r == Some(CountMismatch)
            else
              && (forall i, e :: FirstWrongBacking(tx, backings, now, 0, i, e) ==> r == Some(e))
              && ((forall i :: 0 <= i < |tx.inputs| ==>
                    BackingRight(Lookup(backings, tx.inputs[i].tokenId), tx.outputs[0].currency, now)) ==>
                  r == if Balanced(Backed(tx, backings), tx.outputs, tx.fee) then None else Some(NotConserved))
  {
    forall i, e | FirstWrongBacking(tx, backings, now, 0, i, e) ensures FirstBackingError(tx, backings, now, 0) == Some(e) {
      FirstBackingIs(tx, backings, now, 0, i, e);
    }
    assert forall u, currency :: BackingRight(u, currency, now) ==> BackingError(u, currency, now).None?;
  }

  method SumOutputs(outs: seq<Output>) returns (total: nat)
    ensures total == DecSum(OutAmounts(outs))
  {
    total := 0;
    for i := 0 to |outs|
      invariant total == DecSum(OutAmounts(outs[..i]))
    {
      assert OutAmounts(outs[..i + 1])[..i] == OutAmounts(outs[..i]);
      total := Round28(total + Positive(outs[i].amount));
    }
    assert outs[..|outs|] == outs;
  }

  method VerifyEconomicValidity(tx: Tx, backings: seq<Backing>, now: int) returns (error: Option<EconomicError>)
    requires tx.outputs != []
    ensures error == EconomicCheck(tx, backings, now)
  {
    if |backings| != |tx.inputs| {
      return Some(CountMismatch);
    }
    var total, seen := 0, [];
    for i := 0 to |tx.inputs|
      invariant FirstBackingError(tx, backings, now, 0) == FirstBackingError(tx, backings, now, i)
      invariant |seen| == i && total == DecSum(InAmounts(seen))
      invariant forall k :: 0 <= k < i ==> Lookup(backings, tx.inputs[k].tokenId) == Some(seen[k])
    {
      var u := Lookup(backings, tx.inputs[i].tokenId);
      var e := BackingError(u, tx.outputs[0].currency, now);
      if e.Some? {
        return e;
      }
      assert InAmounts(seen + [u.value])[..i] == InAmounts(seen);
      seen := seen + [u.value];
      total := Round28(total + u.value.amount);
    }
    assert seen == Backed(tx, backings);
    var totalOut := SumOutputs(tx.outputs);
    if total != Round28(totalOut + Positive(tx.fee)) {
      return Some(NotConserved);
    }
    error := None;
  }

  // ---------- against the ledgers ----------

  /** The tokens a ledger read for the inputs, offered to the model's check. */
  function Offered(tx: Tx, fetched: seq<Utxo>): seq<Backing>
    requires |fetched| == |tx.inputs|
  {
    seq(|fetched|, i requires 0 <= i < |fetched| => Backing(tx.inputs[i].tokenId, fetched[i]))
  }

  lemma {:induction false} LookupAt(backings: seq<Backing>, i: nat)
    requires i < |backings| && forall j :: 0 <= j < |backings| && j != i ==> backings[j].tokenId != backings[i].tokenId
    ensures Lookup(backings, backings[i].tokenId) == Some(backings[i].utxo)
  {
    if i < |backings| - 1 {
      LookupAt(backings[..|backings| - 1], i);
    }
  }

  lemma BackedByOffer(tx: Tx, fetched: seq<Utxo>)
    requires |fetched| == |tx.inputs| && NoDup(InputIds(tx))
    ensures forall k :: 0 <= k < |tx.inputs| ==> Lookup(Offered(tx, fetched), tx.inputs[k].tokenId) == Some(fetched[k])
    ensures Backed(tx, Offered(tx, fetched)) == fetched
  {
    var offer := Offered(tx, fetched);
    forall k | 0 <= k < |tx.inputs| ensures Lookup(offer, tx.inputs[k].tokenId) == Some(fetched[k]) {
      forall j | 0 <= j < |offer| && j != k ensures offer[j].tokenId != offer[k].tokenId {
        assert InputIds(tx)[j] != InputIds(tx)[k];
      }
      LookupAt(offer, k);
    }
  }

  /** The model's constructor rule: one currency for all outputs. */
  predicate OneCurrency(tx: Tx) {
    tx.outputs != [] && forall i :: 0 <= i < |tx.outputs| ==> tx.outputs[i].currency == tx.outputs[0].currency
  }

  predicate Alive(fetched: seq<Utxo>, now: int) {
    forall i :: 0 <= i < |fetched| && fetched[i].expiresAt.Some? ==> now < fetched[i].expiresAt.value
  }

  lemma {:induction false} ModelAccepts(tx: Tx, fetched: seq<Utxo>, now: int)
    requires |fetched| == |tx.inputs| && NoDup(InputIds(tx)) && tx.outputs != []
    ensures EconomicCheck(tx, Offered(tx, fetched), now).None? <==>
            && (forall i :: 0 <= i < |fetched| ==> fetched[i].currency == tx.outputs[0].currency)
            && Alive(fetched, now) && Balanced(fetched, tx.outputs, tx.fee)
  {
    BackedByOffer(tx, fetched);
    assert forall i :: 0 <= i < |fetched| ==>
      (BackingError(Lookup(Offered(tx, fetched), tx.inputs[i].tokenId), tx.outputs[0].currency, now).None? <==>
       fetched[i].currency == tx.outputs[0].currency &&
       (fetched[i].expiresAt.Some? ==> now < fetched[i].expiresAt.value));
  }

  /** What a ledger demands beyond the model's checks. */
  predicate Formalities(c: Crypto, rules: Rules, tx: Tx, fetched: seq<Utxo>)
    requires |fetched| == |tx.inputs|
  {
    && |tx.inputs| <= MAX_TX_INPUTS && |tx.outputs| <= MAX_TX_OUTPUTS && tx.fee >= 0 && IdCheck(c, tx).None?
    && NoDup(InputIds(tx)) && (forall i :: 0 <= i < |tx.outputs| ==> tx.outputs[i].amount > 0)
    && (forall i :: 0 <= i < |fetched| ==>
          && (rules.Memory? ==> fetched[i].lockScript == "")
          && c.verify(fetched[i].owner, TxId(c, tx), tx.inputs[i].tokenId, tx.inputs[i].signature))
  }

  predicate NoneExpiresAt(fetched: seq<Utxo>, now: int) {
    forall i :: 0 <= i < |fetched| ==> fetched[i].expiresAt != Some(now)
  }

  /** Ledger validation and the model's check agree on value, currency and expiry, except for a token
      whose expiry is the clock reading itself: the ledgers still accept it, the model does not. */
  lemma {:induction false} LedgerVersusModel(c: Crypto, rules: Rules, tx: Tx, fetched: seq<Utxo>, now: int)
    requires 0 < |fetched| == |tx.inputs| && OneCurrency(tx)
    ensures Sound(c, rules, tx, fetched, now) && NoneExpiresAt(fetched, now) <==>
            EconomicCheck(tx, Offered(tx, fetched), now).None? && Formalities(c, rules, tx, fetched)
  {
    if NoDup(InputIds(tx)) {
      ModelAccepts(tx, fetched, now);
    }
    assert Sound(c, rules, tx, fetched, now) ==> tx.outputs[0].currency == fetched[0].currency;
  }
}
