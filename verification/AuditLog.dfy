/** Hamilton's append-only audit log: what its rows say, the token table they determine,
    where every token came from, and what the hash chain commits to. */
module AuditLog {
  import opened Prelude
  import opened Decimal

  datatype Status = Unspent | Spent | Burned

  datatype Row = Row(amount: nat, currency: string, owner: string, status: Status)

  type Utxos = map<string, Row>

  datatype TxOut = TxOut(tokenId: string, amount: nat, receiver: string)

  /** The payload column; its constructor is the action column. */
  datatype Payload =
    | Mint(amount: nat, currency: string, publicKey: string)
    | Transfer(transactionId: string, network: string, currency: string, inputs: seq<string>,
               outputs: seq<TxOut>, signer: string, signedAt: int)
    | Burn(tokenIds: seq<string>, network: string, owner: string, signedAt: int)

  datatype AuditRow = AuditRow(txId: string, payload: Payload, prevHash: string, chainHash: string)

  // ---------- replay ----------

  function OutIds(outs: seq<TxOut>): seq<string> {
    seq(|outs|, i requires 0 <= i < |outs| => outs[i].tokenId)
  }

  function OutAmounts(outs: seq<TxOut>): seq<nat> {
    seq(|outs|, i requires 0 <= i < |outs| => outs[i].amount)
  }

  function OutRows(outs: seq<TxOut>, currency: string): Utxos {
    if outs == [] then map[] else
      var o := outs[|outs| - 1];
      OutRows(outs[..|outs| - 1], currency)[o.tokenId := Row(o.amount, currency, o.receiver, Unspent)]
  }

  function Created(txId: string, p: Payload): Utxos {
    match p
    case Mint(amount, currency, key) => map[txId := Row(amount, currency, key, Unspent)]
    case Transfer(_, _, currency, _, outs, _, _) => OutRows(outs, currency)
    case Burn(_, _, _, _) => map[]
  }

  function Consumed(p: Payload): seq<string> {
    match p
    case Mint(_, _, _) => []
    case Transfer(_, _, _, inputs, _, _, _) => inputs
    case Burn(ids, _, _, _) => ids
  }

  /** The status a payload leaves on the tokens it consumes. */
  function Leaves(p: Payload): Status {
    if p.Burn? then Burned else Spent
  }

  function Mark(t: Utxos, ids: seq<string>, status: Status): Utxos {
    map k | k in t :: if k in ids then t[k].(status := status) else t[k]
  }

  function Apply(t: Utxos, txId: string, p: Payload): Utxos {
    Mark(t, Consumed(p), Leaves(p)) + Created(txId, p)
  }

  /** The token table, rebuilt from the log alone. */
  function Replay(log: seq<AuditRow>): Utxos {
    if log == [] then map[] else
      var e := log[|log| - 1];
      Apply(Replay(log[..|log| - 1]), e.txId, e.payload)
  }

  predicate Held(t: Utxos, id: string, owner: string) {
    id in t && t[id].status == Unspent && t[id].owner == owner
  }

  function Amounts(t: Utxos, ids: seq<string>): seq<nat>
    requires forall id :: id in ids ==> id in t
  {
    seq(|ids|, i requires 0 <= i < |ids| => t[ids[i]].amount)
  }

  /** What one entry may do to the table it is appended to. */
  predicate EntryOk(t: Utxos, txId: string, p: Payload) {
    match p
    case Mint(_, _, _) => txId !in t
    case Transfer(_, _, currency, inputs, outs, signer, _) =>
      && inputs != [] && NoDup(inputs) && NoDup(OutIds(outs))
      && (forall id :: id in inputs ==> Held(t, id, signer) && t[id].currency == currency)
      && (forall id :: id in OutIds(outs) ==> id !in t)
      && DecSum(Amounts(t, inputs)) == DecSum(OutAmounts(outs))
    case Burn(ids, _, owner, _) =>
      ids != [] && NoDup(ids) && forall id :: id in ids ==> Held(t, id, owner)
  }

  function TxIds(log: seq<AuditRow>): seq<string> {
    seq(|log|, i requires 0 <= i < |log| => log[i].txId)
  }

  /** Every entry was allowed by the table its predecessors determine, and no tx_id repeats. */
  predicate LegalLog(log: seq<AuditRow>) {
    log == [] ||
    var front, e := log[..|log| - 1], log[|log| - 1];
    LegalLog(front) && EntryOk(Replay(front), e.txId, e.payload) && e.txId !in TxIds(front)
  }

  lemma {:induction false} LegalIdsDistinct(log: seq<AuditRow>)
    requires LegalLog(log)
    ensures NoDup(TxIds(log))
  {
    if log != [] {
      var front := log[..|log| - 1];
      LegalIdsDistinct(front);
      assert TxIds(log) == TxIds(front) + [log[|log| - 1].txId];
    }
  }

  lemma LegalAppend(log: seq<AuditRow>, e: AuditRow)
    ensures Replay(log + [e]) == Apply(Replay(log), e.txId, e.payload)
    ensures LegalLog(log + [e]) <==> LegalLog(log) && EntryOk(Replay(log), e.txId, e.payload) && e.txId !in TxIds(log)
  {
    assert (log + [e])[..|log|] == log;
  }

  lemma {:induction false} OutRowsAt(outs: seq<TxOut>, currency: string)
    ensures OutRows(outs, currency).Keys == Elems(OutIds(outs))
    ensures NoDup(OutIds(outs)) ==> forall i :: 0 <= i < |outs| ==>
      OutRows(outs, currency)[OutIds(outs)[i]] == Row(outs[i].amount, currency, outs[i].receiver, Unspent)
  {
    if outs != [] {
      var n := |outs| - 1;
      OutRowsAt(outs[..n], currency);
      assert OutIds(outs) == OutIds(outs[..n]) + [outs[n].tokenId];
    }
  }

  // ---------- provenance ----------

  ghost predicate CreatedAt(log: seq<AuditRow>, i: int, id: string) {
    0 <= i < |log| && id in Created(log[i].txId, log[i].payload)
  }

  ghost predicate ConsumedAt(log: seq<AuditRow>, i: int, id: string) {
    0 <= i < |log| && id in Consumed(log[i].payload)
  }

  /** What a row of the table looks like, read off the entries that created and consumed it. */
  ghost predicate RowTraced(log: seq<AuditRow>, i: int, id: string, row: Row)
    requires CreatedAt(log, i, id)
  {
    && row == Created(log[i].txId, log[i].payload)[id].(status := row.status)
    && (row.status == Unspent <==> forall j :: !ConsumedAt(log, j, id))
    && (row.status != Unspent ==> exists j :: ConsumedAt(log, j, id) && row.status == Leaves(log[j].payload))
  }

  ghost predicate Traced(log: seq<AuditRow>, id: string) {
    && (id in Replay(log) <==> exists i :: CreatedAt(log, i, id))
    && (forall i, j :: CreatedAt(log, i, id) && CreatedAt(log, j, id) ==> i == j)
    && (forall i, j :: ConsumedAt(log, i, id) && ConsumedAt(log, j, id) ==> i == j)
    && (forall j :: ConsumedAt(log, j, id) ==> id in Replay(log))
    && (forall i, j :: CreatedAt(log, i, id) && ConsumedAt(log, j, id) ==> i < j)
    && (forall i :: CreatedAt(log, i, id) ==> RowTraced(log, i, id, Replay(log)[id]))
  }

  lemma CreatedUnspent(txId: string, p: Payload, id: string)
    requires id in Created(txId, p)
    requires p.Transfer? ==> NoDup(OutIds(p.outputs))
    ensures Created(txId, p)[id].status == Unspent
  {
    if p.Transfer? {
      OutRowsAt(p.outputs, p.currency);
      var i :| 0 <= i < |p.outputs| && OutIds(p.outputs)[i] == id;
    }
  }

  lemma CreatedFresh(t: Utxos, txId: string, p: Payload, id: string)
    requires EntryOk(t, txId, p) && id in Created(txId, p)
    ensures id !in t && id !in Consumed(p)
  {
    if p.Transfer? {
      OutRowsAt(p.outputs, p.currency);
    }
  }

  lemma FrontEvents(log: seq<AuditRow>, id: string)
    requires log != []
    ensures var n := |log| - 1;
            && (forall i {:trigger CreatedAt(log, i, id)} :: CreatedAt(log, i, id) <==>
                  CreatedAt(log[..n], i, id) || (i == n && id in Created(log[n].txId, log[n].payload)))
            && (forall i {:trigger ConsumedAt(log, i, id)} :: ConsumedAt(log, i, id) <==>
                  ConsumedAt(log[..n], i, id) || (i == n && id in Consumed(log[n].payload)))
  {
  }

  lemma ProvenanceOfNew(log: seq<AuditRow>, id: string)
    requires log != [] && LegalLog(log)
    requires var n := |log| - 1; Traced(log[..n], id) && id in Created(log[n].txId, log[n].payload)
    ensures Traced(log, id)
  {
    var n := |log| - 1;
    var front, e := log[..n], log[n];
    CreatedFresh(Replay(front), e.txId, e.payload, id);
    CreatedUnspent(e.txId, e.payload, id);
    FrontEvents(log, id);
    assert CreatedAt(log, n, id);
    assert forall j :: !ConsumedAt(log, j, id);
  }

  lemma ProvenanceOfConsumed(log: seq<AuditRow>, id: string)
    requires log != [] && LegalLog(log)
    requires var n := |log| - 1; Traced(log[..n], id) && id in Consumed(log[n].payload)
    ensures Traced(log, id)
  {
    var n := |log| - 1;
    var front, e := log[..n], log[n];
    FrontEvents(log, id);
    var i :| CreatedAt(front, i, id);
    assert id !in Created(e.txId, e.payload) by {
      if id in Created(e.txId, e.payload) {
        CreatedFresh(Replay(front), e.txId, e.payload, id);
      }
    }
    assert Replay(log)[id] == Replay(front)[id].(status := Leaves(e.payload));
    assert CreatedAt(log, i, id) && ConsumedAt(log, n, id);
    assert forall j :: !ConsumedAt(front, j, id);
    assert RowTraced(log, i, id, Replay(log)[id]);
  }

  lemma ProvenanceOfOther(log: seq<AuditRow>, id: string)
    requires log != [] && LegalLog(log)
    requires var n := |log| - 1;
      Traced(log[..n], id) && id !in Created(log[n].txId, log[n].payload) && id !in Consumed(log[n].payload)
    ensures Traced(log, id)
  {
    var n := |log| - 1;
    var front := log[..n];
    FrontEvents(log, id);
    assert id in Replay(log) <==> id in Replay(front);
    forall i | CreatedAt(log, i, id) ensures RowTraced(log, i, id, Replay(log)[id]) {
      assert CreatedAt(front, i, id) && RowTraced(front, i, id, Replay(front)[id]);
      assert Replay(log)[id] == Replay(front)[id];
      if Replay(log)[id].status != Unspent {
        var j :| ConsumedAt(front, j, id) && Replay(front)[id].status == Leaves(front[j].payload);
        assert ConsumedAt(log, j, id);
      }
    }
    if i :| CreatedAt(front, i, id) {
      assert CreatedAt(log, i, id);
    }
  }

  /** Every token has one creating entry and at most one, later, consuming entry, and its row is theirs. */
  lemma {:induction false} Provenance(log: seq<AuditRow>, id: string)
    requires LegalLog(log)
    ensures Traced(log, id)
  {
    if log != [] {
      var n := |log| - 1;
      Provenance(log[..n], id);
      if id in Created(log[n].txId, log[n].payload) {
        ProvenanceOfNew(log, id);
      } else if id in Consumed(log[n].payload) {
        ProvenanceOfConsumed(log, id);
      } else {
        ProvenanceOfOther(log, id);
      }
    }
  }

  lemma {:induction false} LegalPrefix(log: seq<AuditRow>, n: nat)
    requires LegalLog(log) && n <= |log|
    ensures LegalLog(log[..n])
    ensures n < |log| ==> EntryOk(Replay(log[..n]), log[n].txId, log[n].payload)
    decreases |log|
  {
    if n == |log| {
      assert log[..n] == log;
    } else {
      var front := log[..|log| - 1];
      if n < |front| {
        LegalPrefix(front, n);
        assert front[..n] == log[..n];
      }
    }
  }

  /** The entry that created a token of the table. */
  ghost function Creator(log: seq<AuditRow>, id: string): (i: nat)
    requires LegalLog(log) && id in Replay(log)
    ensures CreatedAt(log, i, id)
  {
    Provenance(log, id);
    var i :| CreatedAt(log, i, id);
    i
  }

  lemma ConsumedEarlier(log: seq<AuditRow>, i: nat)
    requires LegalLog(log) && i < |log|
    ensures forall id :: id in Consumed(log[i].payload) ==> id in Replay(log) && Creator(log, id) < i
  {
    forall id | id in Consumed(log[i].payload) ensures id in Replay(log) && Creator(log, id) < i {
      Provenance(log, id);
      assert ConsumedAt(log, i, id);
    }
  }

  /** The mint entries reached by following consumed tokens back from an entry. */
  ghost function Roots(log: seq<AuditRow>, i: nat): (roots: set<nat>)
    requires LegalLog(log) && i < |log|
    ensures roots != {}
    ensures forall r :: r in roots ==> r <= i && log[r].payload.Mint?
    decreases i
  {
    if log[i].payload.Mint? then {i} else
      ConsumedEarlier(log, i);
      LegalPrefix(log, i);
      var ids := Consumed(log[i].payload);
      assert ids[0] in ids && Roots(log, Creator(log, ids[0])) != {};
      set id, r | id in ids && r in Roots(log, Creator(log, id)) :: r
  }

  function EntryCurrency(p: Payload): string
    requires !p.Burn?
  {
    p.currency
  }

  lemma CreatedCurrency(txId: string, p: Payload, id: string)
    requires id in Created(txId, p) && (p.Transfer? ==> NoDup(OutIds(p.outputs)))
    ensures !p.Burn? && Created(txId, p)[id].currency == EntryCurrency(p)
  {
    if p.Transfer? {
      OutRowsAt(p.outputs, p.currency);
      var i :| 0 <= i < |p.outputs| && OutIds(p.outputs)[i] == id;
    }
  }

  /** A token carries the currency of the entry that created it, in every table that holds it. */
  lemma CreatorCurrency(log: seq<AuditRow>, id: string)
    requires LegalLog(log) && id in Replay(log)
    ensures var p := log[Creator(log, id)].payload; !p.Burn? && Replay(log)[id].currency == EntryCurrency(p)
  {
    Provenance(log, id);
    var i := Creator(log, id);
    LegalPrefix(log, i);
    CreatedCurrency(log[i].txId, log[i].payload, id);
    assert RowTraced(log, i, id, Replay(log)[id]);
  }

  lemma CreatorInPrefix(log: seq<AuditRow>, n: nat, id: string)
    requires LegalLog(log) && n <= |log| && LegalLog(log[..n]) && id in Replay(log[..n])
    ensures id in Replay(log) && Creator(log, id) == Creator(log[..n], id)
  {
    Provenance(log, id);
    assert CreatedAt(log, Creator(log[..n], id), id);
  }

  lemma InputCurrency(log: seq<AuditRow>, i: nat, id: string)
    requires LegalLog(log) && i < |log| && log[i].payload.Transfer? && id in log[i].payload.inputs
    ensures id in Replay(log) && Creator(log, id) < i
    ensures var p := log[Creator(log, id)].payload; !p.Burn? && EntryCurrency(p) == log[i].payload.currency
  {
    ConsumedEarlier(log, i);
    LegalPrefix(log, i);
    assert Held(Replay(log[..i]), id, log[i].payload.signer);
    CreatorInPrefix(log, i, id);
    CreatorCurrency(log[..i], id);
  }

  /** Following tokens back never changes currency: a transfer's roots were minted in its own currency. */
  lemma {:induction false} RootsKeepCurrency(log: seq<AuditRow>, i: nat, r: nat)
    requires LegalLog(log) && i < |log| && !log[i].payload.Burn? && r in Roots(log, i)
    ensures log[r].payload.currency == EntryCurrency(log[i].payload)
    decreases i
  {
    if log[i].payload.Transfer? {
      ConsumedEarlier(log, i);
      LegalPrefix(log, i);
      var id :| id in Consumed(log[i].payload) && r in Roots(log, Creator(log, id));
      InputCurrency(log, i, id);
      RootsKeepCurrency(log, Creator(log, id), r);
    }
  }
}
