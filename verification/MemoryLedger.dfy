/** The in-memory ledger: two locked phases around an unlocked validation, an owner index, a bounded history. */
module MemoryLedger {
  import opened Prelude
  import opened Decimal
  import opened TxRules
  import opened Tokens
  import opened Payments

  const MAX_HISTORY_SIZE := 100_000

  /** Live tokens, and the ids of applied transactions in insertion order. */
  datatype Ledger = Ledger(utxos: Tokens, processed: seq<string>)

  /** What the first locked phase refuses. */
  function FetchError(s: Ledger, tx: Tx, h: string): Option<Error> {
    if h in s.processed then Some(AlreadyProcessed) else if !Present(s.utxos, tx) then Some(MissingInput) else None
  }

  /** What the second locked phase rechecks: only presence, of the id and of the inputs. */
  function CommitError(s: Ledger, tx: Tx, h: string): Option<Error> {
    if h in s.processed || !Present(s.utxos, tx) then Some(Conflict) else None
  }

  function Remember(processed: seq<string>, h: string): seq<string> {
    if |processed| + 1 > MAX_HISTORY_SIZE then (processed + [h])[1..] else processed + [h]
  }

  function Commit(s: Ledger, tx: Tx, h: string, feeCollector: string, currency: string, ids: seq<string>): Ledger
    requires |ids| == IdsNeeded(tx)
  {
    Ledger(After(s.utxos, tx, feeCollector, currency, ids), Remember(s.processed, h))
  }

  /** The whole of apply_transaction in one indivisible step. */
  function AtomicApply(c: Crypto, feeCollector: string, s: Ledger, tx: Tx, now: int, ids: seq<string>): Result<Ledger, Error>
    requires |ids| == IdsNeeded(tx)
  {
    var pre := PreCheck(c, Memory, tx);
    var h := TxId(c, tx);
    if pre.Some? then Err(pre.value)
    else if FetchError(s, tx, h).Some? then Err(FetchError(s, tx, h).value)
    else
      var us := Fetched(s.utxos, tx);
      var e := IntentError(c, Memory, h, tx, us, now);
      if e.Some? then Err(e.value) else Ok(Commit(s, tx, h, feeCollector, us[0].currency, ids))
  }

  /** Exactly the transactions are applied that are not among the remembered ones, whose inputs are all there and that
      are sound. */
  lemma AppliedIff(c: Crypto, feeCollector: string, s: Ledger, tx: Tx, now: int, ids: seq<string>)
    requires |ids| == IdsNeeded(tx)
    ensures AtomicApply(c, feeCollector, s, tx, now, ids).Ok? <==>
            && TxId(c, tx) !in s.processed
            && tx.inputs != [] && (forall i :: 0 <= i < |tx.inputs| ==> tx.inputs[i].tokenId in s.utxos)
            && Sound(c, Memory, tx, Fetched(s.utxos, tx), now)
    ensures var r := AtomicApply(c, feeCollector, s, tx, now, ids);
            (forall e: Error :: !PreWrong(c, Memory, tx, e)) ==>
              if TxId(c, tx) in s.processed then r == Err(AlreadyProcessed)
              else (exists i :: 0 <= i < |tx.inputs| && tx.inputs[i].tokenId !in s.utxos) ==> r == Err(MissingInput)
  {
    AdmitsIff(c, Memory, s.utxos, tx, now);
    PresentIff(s.utxos, tx);
    PreCheckReports(c, Memory, tx);
  }

  /** The oldest remembered id goes when there would be more than 100,000. */
  ghost predicate Remembers(before: seq<string>, after: seq<string>, h: string) {
    && (|before| < 100_000 ==> after == before + [h])
    && (|before| == 100_000 ==> before + [h] == [before[0]] + after)
  }

  lemma AppliedCommits(c: Crypto, feeCollector: string, s: Ledger, tx: Tx, now: int, ids: seq<string>)
    requires |ids| == IdsNeeded(tx) && AtomicApply(c, feeCollector, s, tx, now, ids).Ok?
    ensures Admits(c, Memory, s.utxos, tx, now)
    ensures AtomicApply(c, feeCollector, s, tx, now, ids).value ==
            Commit(s, tx, TxId(c, tx), feeCollector, Fetched(s.utxos, tx)[0].currency, ids)
  {
  }

  lemma RememberRemembers(processed: seq<string>, h: string)
    ensures Remembers(processed, Remember(processed, h), h)
  {
  }

  /** What is applied pays as the transaction says, and its id is remembered. */
  lemma AppliedPays(c: Crypto, feeCollector: string, s: Ledger, tx: Tx, now: int, ids: seq<string>)
    requires |ids| == IdsNeeded(tx) && FreshIds(ids, s.utxos.Keys) && AtomicApply(c, feeCollector, s, tx, now, ids).Ok?
    ensures var s' := AtomicApply(c, feeCollector, s, tx, now, ids).value;
            && PaysOut(s.utxos, s'.utxos, tx, feeCollector) && Issues(s.utxos, s'.utxos, tx, feeCollector, ids)
            && Remembers(s.processed, s'.processed, TxId(c, tx))
  {
    AppliedCommits(c, feeCollector, s, tx, now, ids);
    AdmittedPays(c, Memory, s.utxos, tx, now, feeCollector, ids);
    RememberRemembers(s.processed, TxId(c, tx));
  }

  // ---------- steps of the loops ----------

  lemma RemoveStep(t: Tokens, ids: seq<string>, i: nat)
    requires i < |ids| && NoDup(ids) && forall id :: id in ids ==> id in t
    ensures ids[i] in t - Elems(ids[..i])
    ensures t - Elems(ids[..i]) - {ids[i]} == t - Elems(ids[..i + 1])
  {
    assert ids[i] !in ids[..i];
    assert ids[..i + 1] == ids[..i] + [ids[i]];
  }

  lemma PutStep(t: Tokens, ids: seq<string>, us: seq<Utxo>, i: nat)
    requires i < |ids| == |us| && NoDup(ids) && forall id :: id in ids ==> id !in t
    ensures ids[i] !in Put(t, ids[..i], us[..i])
    ensures Put(t, ids[..i + 1], us[..i + 1]) == Put(t, ids[..i], us[..i])[ids[i] := us[i]]
  {
    PutAt(t, ids[..i], us[..i]);
    assert ids[i] !in ids[..i];
    assert ids[..i + 1][..i] == ids[..i] && us[..i + 1][..i] == us[..i];
  }

  class MemoryLedger {
    const crypto: Crypto
    const feeCollector: string
    var utxos: Tokens
    var ownerIndex: map<string, set<string>>
    var processed: seq<string>

    /** The index is the exact inverse of ownership, with no empty buckets. */
    ghost predicate Valid()
      reads this
    {
      ownerIndex == IndexOf(utxos)
    }

    ghost function View(): Ledger
      reads this
    {
      Ledger(utxos, processed)
    }

    constructor (crypto: Crypto, feeCollector: string)
      requires feeCollector != ""
      ensures Valid() && View() == Ledger(map[], []) && this.crypto == crypto && this.feeCollector == feeCollector
    {
      this.crypto, this.feeCollector := crypto, feeCollector;
      utxos, ownerIndex, processed := map[], map[], [];
    }

    /** Visits the owner's bucket in some order and adds what counts. */
    method GetBalance(owner: string, currency: string, now: int) returns (total: nat)
      requires Valid()
      ensures exists order ::
        Enumerates(order, Owned(utxos, owner)) && total == RunningBalance(utxos, owner, currency, now, order)
      ensures Balance(utxos, owner, currency, now) <= LIMIT ==> total == Balance(utxos, owner, currency, now)
    {
      var ids := if owner in ownerIndex then ownerIndex[owner] else {};
      BucketIsOwned(utxos, owner);
      BalanceOverOwned(utxos, owner, currency, now);
      ghost var order: seq<string> := [];
      total := 0;
      var todo := ids;
      while todo != {}
        invariant todo <= ids && Enumerates(order, ids - todo)
        invariant total == RunningBalance(utxos, owner, currency, now, order)
        decreases todo
      {
        var id :| id in todo;
        RunningBalanceSnoc(utxos, owner, currency, now, order, id);
        EnumeratesMore(order, todo, ids, id);
        order := order + [id];
        var u := utxos[id];
        if u.currency == currency {
          if u.expiresAt.None? || u.expiresAt.value > now {
            total := Round28(total + u.amount);
          }
        }
        todo := todo - {id};
      }
      assert ids - todo == ids;
      RunningBalanceExact(utxos, owner, currency, now, order);
    }

    /** First locked phase: refuse a recorded id, read every input. */
    method FetchInputs(tx: Tx, h: string) returns (r: Result<seq<Utxo>, Error>)
      ensures var e := FetchError(View(), tx, h);
              if e.Some? then r == Err(e.value) else r == Ok(Fetched(utxos, tx))
    {
      if h in processed {
        return Err(AlreadyProcessed);
      }
      var fetched: seq<Utxo> := [];
      for i := 0 to |tx.inputs|
        invariant |fetched| == i
        invariant forall j :: 0 <= j < i ==> InputIds(tx)[j] in utxos && fetched[j] == utxos[InputIds(tx)[j]]
      {
        assert InputIds(tx)[i] in InputIds(tx);
        if tx.inputs[i].tokenId !in utxos {
          return Err(MissingInput);
        }
        fetched := fetched + [utxos[tx.inputs[i].tokenId]];
      }
      assert fetched == Fetched(utxos, tx);
      r := Ok(fetched);
    }

    /** Takes one token out of the table and its owner's bucket; an emptied bucket goes too. */
    method Pop(id: string)
      requires Valid() && id in utxos
      modifies this`utxos, this`ownerIndex
      ensures Valid() && utxos == old(utxos) - {id}
    {
      IndexRemove(utxos, id);
      var owner := utxos[id].owner;
      BucketIsOwned(utxos, owner);
      assert id in Owned(utxos, owner);
      utxos := utxos - {id};
      if owner in ownerIndex {
        var bucket := ownerIndex[owner] - {id};
        ownerIndex := if bucket == {} then ownerIndex - {owner} else ownerIndex[owner := bucket];
      }
    }

    method Insert(id: string, u: Utxo)
      requires Valid() && id !in utxos
      modifies this`utxos, this`ownerIndex
      ensures Valid() && utxos == old(utxos)[id := u]
    {
      IndexAdd(utxos, id, u);
      utxos := utxos[id := u];
      ownerIndex := ownerIndex[u.owner := (if u.owner in ownerIndex then ownerIndex[u.owner] else {}) + {id}];
    }

    /** Second locked phase: recheck presence, swap inputs for new tokens, record the id, evict the oldest. */
    method CommitTransaction(tx: Tx, h: string, fetched: seq<Utxo>, ids: seq<string>) returns (error: Option<Error>)
      requires Valid() && fetched != [] && NoDup(InputIds(tx))
      requires |ids| == IdsNeeded(tx) && FreshIds(ids, utxos.Keys)
      modifies this
      ensures Valid() && error == CommitError(old(View()), tx, h)
      ensures View() == if error.Some? then old(View()) else Commit(old(View()), tx, h, feeCollector, fetched[0].currency, ids)
    {
      if h in processed {
        return Some(Conflict);
      }
      var ins := InputIds(tx);
      if exists id :: id in ins && id !in utxos {
        return Some(Conflict);
      }
      ghost var t := utxos;
      var i := 0;
      assert Elems(ins[..0]) == {} && t - {} == t;
      while i < |ins|
        invariant 0 <= i <= |ins| && Valid() && processed == old(processed)
        invariant utxos == t - Elems(ins[..i])
      {
        RemoveStep(t, ins, i);
        Pop(ins[i]);
        i := i + 1;
      }
      assert ins[..|ins|] == ins;
      ghost var rest := t - Elems(ins);
      var us := Made(tx, feeCollector, fetched[0].currency);
      i := 0;
      while i < |us|
        invariant 0 <= i <= |us| && Valid() && processed == old(processed)
        invariant utxos == Put(rest, ids[..i], us[..i])
      {
        PutStep(rest, ids, us, i);
        Insert(ids[i], us[i]);
        i := i + 1;
      }
      assert ids[..|us|] == ids && us[..|us|] == us;
      processed := processed + [h];
      if |processed| > MAX_HISTORY_SIZE {
        processed := processed[1..];
      }
      error := None;
    }

    /** Called with no other thread in between, the two phases are one atomic step. */
    method ApplyTransaction(tx: Tx, now: int, ids: seq<string>) returns (r: Result<string, Error>)
      requires Valid() && |ids| == IdsNeeded(tx) && FreshIds(ids, utxos.Keys)
      modifies this
      ensures Valid()
      ensures var whole := AtomicApply(crypto, feeCollector, old(View()), tx, now, ids);
              if whole.Err? then r == Err(whole.error) && View() == old(View())
              else r == Ok(TxId(crypto, tx)) && View() == whole.value
      ensures r.Ok? <==>
        && TxId(crypto, tx) !in old(processed)
        && tx.inputs != [] && (forall i :: 0 <= i < |tx.inputs| ==> tx.inputs[i].tokenId in old(utxos))
        && Sound(crypto, Memory, tx, Fetched(old(utxos), tx), now)
      ensures r.Ok? ==> PaysOut(old(utxos), utxos, tx, feeCollector) && Issues(old(utxos), utxos, tx, feeCollector, ids)
      ensures r.Ok? ==> Remembers(old(processed), processed, r.value)
    {
      AppliedIff(crypto, feeCollector, View(), tx, now, ids);
      if AtomicApply(crypto, feeCollector, View(), tx, now, ids).Ok? {
        AppliedPays(crypto, feeCollector, View(), tx, now, ids);
      }
      var pre := PreCheck(crypto, Memory, tx);
      if pre.Some? {
        return Err(pre.value);
      }
      var h := TxId(crypto, tx);
      var fetched := FetchInputs(tx, h);
      if fetched.Err? {
        return Err(fetched.error);
      }
      var error := ValidateTxIntent(crypto, Memory, h, tx, fetched.value, now);
      if error.Some? {
        return Err(error.value);
      }
      error := CommitTransaction(tx, h, fetched.value, ids);
      r := Ok(h);
    }
  }
}
