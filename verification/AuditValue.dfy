/** Value across the audit log: what is unspent or burned is what was minted, up to 28-digit rounding. */
module AuditValue {
  import opened Prelude
  import opened Decimal
  import opened AuditLog

  ghost function Weight(t: Utxos, currency: string, status: Status): string -> int {
    id => if id in t && t[id].currency == currency && t[id].status == status then t[id].amount else 0
  }

  /** The total of a currency held by rows of one status. */
  ghost function Total(t: Utxos, currency: string, status: Status): int {
    SetSum(t.Keys, Weight(t, currency, status))
  }

  ghost function LiveWeight(t: Utxos, currency: string): string -> int {
    id => if id in t && t[id].currency == currency && t[id].status != Spent then t[id].amount else 0
  }

  /** The total of a currency in rows that no transfer has replaced. */
  ghost function Live(t: Utxos, currency: string): int {
    SetSum(t.Keys, LiveWeight(t, currency))
  }

  function Minted(log: seq<AuditRow>, currency: string): nat {
    if log == [] then 0 else
      var p := log[|log| - 1].payload;
      Minted(log[..|log| - 1], currency) + if p.Mint? && p.currency == currency then p.amount else 0
  }

  lemma LiveIsUnspentPlusBurned(t: Utxos, currency: string)
    ensures Live(t, currency) == Total(t, currency, Unspent) + Total(t, currency, Burned)
  {
    SetSumAdd(t.Keys, Weight(t, currency, Unspent), Weight(t, currency, Burned), LiveWeight(t, currency));
  }

  /** Adding rows for new tokens adds their live value. */
  lemma LiveOfUnion(t: Utxos, added: Utxos, currency: string)
    requires t.Keys !! added.Keys
    ensures Live(t + added, currency) == Live(t, currency) + Live(added, currency)
  {
    var w := LiveWeight(t + added, currency);
    assert (t + added).Keys == t.Keys + added.Keys;
    SetSumUnion(t.Keys, added.Keys, w);
    SetSumCongruent(t.Keys, w, LiveWeight(t, currency));
    SetSumCongruent(added.Keys, w, LiveWeight(added, currency));
  }

  lemma LiveOfOutputs(outs: seq<TxOut>, rowCurrency: string, currency: string)
    requires NoDup(OutIds(outs))
    ensures Live(OutRows(outs, rowCurrency), currency) == if rowCurrency == currency then Sum(OutAmounts(outs)) else 0
  {
    var rows := OutRows(outs, rowCurrency);
    var w := LiveWeight(rows, currency);
    OutRowsAt(outs, rowCurrency);
    forall k | k in rows
      ensures rows[k].currency == rowCurrency && rows[k].status == Unspent
    {
      var i :| 0 <= i < |outs| && OutIds(outs)[i] == k;
    }
    if rowCurrency == currency {
      SetSumOfList(OutIds(outs), w, OutAmounts(outs));
    } else {
      SetSumZero(rows.Keys, w);
    }
  }

  /** Marking tokens SPENT removes exactly their value; marking them BURNED removes none. */
  lemma LiveOfMark(t: Utxos, ids: seq<string>, status: Status, rowCurrency: string, currency: string)
    requires NoDup(ids) && status != Unspent
    requires forall id :: id in ids ==> id in t && t[id].status == Unspent
    requires status == Spent ==> forall id :: id in ids ==> t[id].currency == rowCurrency
    ensures Live(Mark(t, ids, status), currency) == Live(t, currency)
              - if status == Spent && rowCurrency == currency then Sum(Amounts(t, ids)) else 0
  {
    var t' := Mark(t, ids, status);
    var w, w' := LiveWeight(t, currency), LiveWeight(t', currency);
    assert t'.Keys == t.Keys;
    if status == Burned {
      SetSumCongruent(t.Keys, w, w');
    } else {
      var hit, rest := Elems(ids), t.Keys - Elems(ids);
      assert t.Keys == rest + hit;
      SetSumUnion(rest, hit, w);
      SetSumUnion(rest, hit, w');
      SetSumCongruent(rest, w, w');
      SetSumZero(hit, w');
      if rowCurrency == currency {
        SetSumOfList(ids, w, Amounts(t, ids));
      } else {
        SetSumZero(hit, w);
      }
    }
  }

  lemma LiveOfMint(txId: string, p: Payload, currency: string)
    requires p.Mint?
    ensures Live(Created(txId, p), currency) == if p.currency == currency then p.amount else 0
  {
    var t := Created(txId, p);
    SetSumRemove(t.Keys, LiveWeight(t, currency), txId);
    assert t.Keys - {txId} == {};
  }

  /** The live total one entry leaves. */
  ghost function LiveAfter(t: Utxos, p: Payload, currency: string): int
    requires p.Transfer? ==> forall id :: id in p.inputs ==> id in t
  {
    Live(t, currency) +
    match p
    case Mint(amount, c, _) => if c == currency then amount else 0
    case Transfer(_, _, c, inputs, outs, _, _) =>
      if c == currency then Sum(OutAmounts(outs)) - Sum(Amounts(t, inputs)) else 0
    case Burn(_, _, _, _) => 0
  }

  lemma LiveOfEntry(t: Utxos, txId: string, p: Payload, currency: string)
    requires EntryOk(t, txId, p)
    ensures Live(Apply(t, txId, p), currency) == LiveAfter(t, p, currency)
  {
    var marked := Mark(t, Consumed(p), Leaves(p));
    match p
    case Mint(_, _, _) =>
      assert marked == t;
      LiveOfMint(txId, p, currency);
      LiveOfUnion(t, Created(txId, p), currency);
    case Transfer(_, _, c, inputs, outs, _, _) =>
      LiveOfMark(t, inputs, Spent, c, currency);
      OutRowsAt(outs, c);
      LiveOfOutputs(outs, c, currency);
      LiveOfUnion(marked, OutRows(outs, c), currency);
    case Burn(ids, _, _, _) =>
      LiveOfMark(t, ids, Burned, "", currency);
      assert marked + map[] == marked;
  }

  /** Live value is never negative, and inputs never hold more than the live total. */
  lemma InputsWithinLive(t: Utxos, ids: seq<string>, currency: string)
    requires NoDup(ids)
    requires forall id :: id in ids ==> id in t && t[id].status == Unspent && t[id].currency == currency
    ensures Sum(Amounts(t, ids)) <= Live(t, currency)
  {
    var w := LiveWeight(t, currency);
    var hit, rest := Elems(ids), t.Keys - Elems(ids);
    assert t.Keys == rest + hit;
    SetSumUnion(rest, hit, w);
    SetSumNonNegative(rest, w);
    SetSumOfList(ids, w, Amounts(t, ids));
  }

  lemma {:induction false} LiveIsMinted(log: seq<AuditRow>, currency: string)
    requires LegalLog(log) && Minted(log, currency) < LIMIT
    ensures Live(Replay(log), currency) == Minted(log, currency)
  {
    if log != [] {
      var front, e := log[..|log| - 1], log[|log| - 1];
      LiveIsMinted(front, currency);
      var t := Replay(front);
      LiveOfEntry(t, e.txId, e.payload, currency);
      if e.payload.Transfer? && e.payload.currency == currency {
        InputsWithinLive(t, e.payload.inputs, currency);
        EqualTotalsBelowLimit(Amounts(t, e.payload.inputs), OutAmounts(e.payload.outputs));
      }
    }
  }

  ghost predicate Conserved(log: seq<AuditRow>, currency: string) {
    Total(Replay(log), currency, Unspent) == Minted(log, currency) - Total(Replay(log), currency, Burned)
  }

  /** UNSPENT is minted minus burned, for every log whose mints of the currency stay below 10^28 cents. */
  lemma {:induction false} Conservation(log: seq<AuditRow>, currency: string)
    requires LegalLog(log) && Minted(log, currency) < LIMIT
    ensures Conserved(log, currency)
  {
    LiveIsMinted(log, currency);
    LiveIsUnspentPlusBurned(Replay(log), currency);
  }

  // ---------- the bound is sharp ----------

  /** Two mints worth 10^28 cents to one owner, and a transfer that pays out a cent more than it takes in. */
  datatype Inflation = Inflation(owner: string, a: string, b: string, tx: string, c: string, d: string, network: string, at: int) {
    predicate Distinct() {
      a != b && tx != a && tx != b && c != d && c != a && c != b && d != a && d != b
    }

    function First(): AuditRow {
      AuditRow(a, Payload.Mint(LIMIT - 1, "USD", owner), "", "")
    }

    function Second(): AuditRow {
      AuditRow(b, Payload.Mint(1, "USD", owner), "", "")
    }

    function Overpay(): AuditRow {
      AuditRow(tx, Payload.Transfer(tx, network, "USD", [a, b], [TxOut(c, LIMIT - 1, owner), TxOut(d, 2, owner)], owner, at), "", "")
    }

    function Mints(): seq<AuditRow> {
      [First(), Second()]
    }

    function Table(): Utxos {
      map[a := Row(LIMIT - 1, "USD", owner, Unspent), b := Row(1, "USD", owner, Unspent)]
    }

    function Log(): seq<AuditRow> {
      Mints() + [Overpay()]
    }
  }

  lemma MintsLegal(w: Inflation)
    requires w.Distinct()
    ensures LegalLog(w.Mints()) && TxIds(w.Mints()) == [w.a, w.b] && Replay(w.Mints()) == w.Table()
  {
    assert [] + [w.First()] == [w.First()] && [w.First()] + [w.Second()] == w.Mints();
    LegalAppend([], w.First());
    LegalAppend([w.First()], w.Second());
  }

  lemma {:induction false} MintedAppend(log: seq<AuditRow>, e: AuditRow, currency: string)
    ensures Minted(log + [e], currency) ==
            Minted(log, currency) + if e.payload.Mint? && e.payload.currency == currency then e.payload.amount else 0
  {
    assert (log + [e])[..|log|] == log;
  }

  lemma MintsValue(w: Inflation)
    requires w.Distinct()
    ensures Minted(w.Mints(), "USD") == LIMIT && Live(Replay(w.Mints()), "USD") == LIMIT
  {
    assert [] + [w.First()] == [w.First()] && [w.First()] + [w.Second()] == w.Mints();
    MintedAppend([], w.First(), "USD");
    MintedAppend([w.First()], w.Second(), "USD");
    LegalAppend([], w.First());
    LegalAppend([w.First()], w.Second());
    LiveOfEntry(Replay([]), w.a, w.First().payload, "USD");
    LiveOfEntry(Replay([w.First()]), w.b, w.Second().payload, "USD");
  }

  lemma OneCentMore(log: seq<AuditRow>, t: Utxos, e: AuditRow, currency: string)
    requires LegalLog(log) && Replay(log) == t && e.txId !in TxIds(log) && !e.payload.Mint?
    requires EntryOk(t, e.txId, e.payload) && Live(t, currency) == Minted(log, currency)
    requires Live(Apply(t, e.txId, e.payload), currency) == Live(t, currency) + 1
    ensures LegalLog(log + [e]) && Minted(log + [e], currency) == Minted(log, currency) && !Conserved(log + [e], currency)
  {
    LegalAppend(log, e);
    MintedAppend(log, e, currency);
    LiveIsUnspentPlusBurned(Replay(log + [e]), currency);
  }

  /** Whatever the ids and the owner, such a log is legal, its mints total exactly 10^28 cents, and a cent appears. */
  lemma InflatingLog(w: Inflation)
    requires w.Distinct()
    ensures LegalLog(w.Log()) && Minted(w.Log(), "USD") == LIMIT && !Conserved(w.Log(), "USD")
  {
    MintsLegal(w);
    MintsValue(w);
    InflatingStep(w);
    OneCentMore(w.Mints(), w.Table(), w.Overpay(), "USD");
  }

  lemma InflatingStep(w: Inflation)
    requires w.Distinct()
    ensures EntryOk(w.Table(), w.tx, w.Overpay().payload)
    ensures Live(Apply(w.Table(), w.tx, w.Overpay().payload), "USD") == Live(w.Table(), "USD") + 1
  {
    InflatingTransfer(w);
    LiveOfEntry(w.Table(), w.tx, w.Overpay().payload, "USD");
  }

  lemma InflatingTransfer(w: Inflation)
    requires w.Distinct()
    ensures EntryOk(w.Table(), w.tx, w.Overpay().payload)
    ensures LiveAfter(w.Table(), w.Overpay().payload, "USD") == Live(w.Table(), "USD") + 1
  {
    var outs := w.Overpay().payload.outputs;
    assert Amounts(w.Table(), [w.a, w.b]) == [LIMIT - 1, 1] && OutAmounts(outs) == [LIMIT - 1, 2] && OutIds(outs) == [w.c, w.d];
    InflatingSums();
  }

  /** Ten to the 28th, and one cent more, have the same rounded total. */
  lemma InflatingSums()
    ensures DecSum([LIMIT - 1, 1]) == DecSum([LIMIT - 1, 2])
    ensures Sum([LIMIT - 1, 2]) == Sum([LIMIT - 1, 1]) + 1
  {
    PairSums(LIMIT - 1, 1);
    PairSums(LIMIT - 1, 2);
    Round28JustAbove();
  }

  lemma PairSums(a: nat, b: nat)
    ensures Sum([a, b]) == a + b
    ensures DecSum([a, b]) == Round28(Round28(a) + b)
  {
    assert [a, b][..1] == [a] && [a][..0] == [];
    assert Sum([a]) == a && DecSum([a]) == Round28(a);
  }
}
