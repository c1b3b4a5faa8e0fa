/** The stored payload text and the hash chain over it. */
module AuditChain {
  import opened Decimal
  import opened AuditLog
  import opened Json

  // ---------- payload text ----------

  function StrList(ss: seq<string>): seq<Json> {
    seq(|ss|, i requires 0 <= i < |ss| => Str(ss[i]))
  }

  function OutJson(o: TxOut): Json {
    Obj([Field("token_id", Str(o.tokenId)), Field("amount", Str(CentsText(o.amount))),
         Field("receiver_public_key", Str(o.receiver))])
  }

  function OutList(outs: seq<TxOut>): seq<Json> {
    seq(|outs|, i requires 0 <= i < |outs| => OutJson(outs[i]))
  }

  function ToJson(p: Payload): Json {
    match p
    case Mint(amount, currency, key) =>
      Obj([Field("amount", Str(CentsText(amount))), Field("currency", Str(currency)), Field("public_key", Str(key))])
    case Transfer(id, network, currency, inputs, outs, signer, at) =>
      Obj([Field("transaction_id", Str(id)), Field("network_id", Str(network)), Field("currency", Str(currency)),
           Field("inputs", Arr(StrList(inputs))), Field("outputs", Arr(OutList(outs))),
           Field("signer_public_key", Str(signer)), Field("signed_at", Num(at))])
    case Burn(ids, network, owner, at) =>
      Obj([Field("token_ids", Arr(StrList(ids))), Field("network_id", Str(network)),
           Field("owner_public_key", Str(owner)), Field("signed_at", Num(at))])
  }

  /** The payload column. */
  function Render(p: Payload): string {
    Print(ToJson(p), Spaced)
  }

  lemma StrListInjective(a: seq<string>, b: seq<string>)
    requires StrList(a) == StrList(b)
    ensures a == b
  {
    assert |a| == |StrList(a)| == |b|;
    forall i | 0 <= i < |a| ensures a[i] == b[i] {
      assert StrList(a)[i] == Str(a[i]) && StrList(b)[i] == Str(b[i]);
    }
  }

  lemma OutJsonInjective(a: TxOut, b: TxOut)
    requires OutJson(a) == OutJson(b)
    ensures a == b
  {
    var x, y := OutJson(a).fields, OutJson(b).fields;
    assert x[0] == y[0] && x[1] == y[1] && x[2] == y[2];
    CentsTextInjective(a.amount, b.amount);
  }

  lemma OutListInjective(a: seq<TxOut>, b: seq<TxOut>)
    requires OutList(a) == OutList(b)
    ensures a == b
  {
    assert |a| == |OutList(a)| == |b|;
    forall i | 0 <= i < |a| ensures a[i] == b[i] {
      assert OutList(a)[i] == OutList(b)[i];
      OutJsonInjective(a[i], b[i]);
    }
  }

  lemma ToJsonInjective(a: Payload, b: Payload)
    requires ToJson(a) == ToJson(b)
    ensures a == b
  {
    var x, y := ToJson(a).fields, ToJson(b).fields;
    assert x[0] == y[0] && x[1] == y[1] && x[2] == y[2];
    match a
    case Mint(_, _, _) =>
      CentsTextInjective(a.amount, b.amount);
    case Transfer(_, _, _, inputs, outs, _, _) =>
      assert x[3] == y[3] && x[4] == y[4] && x[5] == y[5] && x[6] == y[6];
      StrListInjective(inputs, b.inputs);
      OutListInjective(outs, b.outputs);
    case Burn(ids, _, _, _) =>
      assert x[3] == y[3];
      StrListInjective(ids, b.tokenIds);
  }

  /** The stored text determines the payload, its action included. */
  lemma RenderInjective(a: Payload, b: Payload)
    requires Render(a) == Render(b)
    ensures a == b
  {
    PrintInjective(ToJson(a), ToJson(b), Spaced);
    ToJsonInjective(a, b);
  }

  lemma RenderStart(p: Payload)
    ensures Render(p) != [] && Render(p)[0] == '{'
  {
    FirstChar(ToJson(p), Spaced);
  }

  // ---------- the chain ----------

  type Hash = string -> string

  predicate IsHex(c: char) { '0' <= c <= '9' || 'a' <= c <= 'f' }

  predicate IsDigest(s: string) { |s| == 64 && forall i :: 0 <= i < 64 ==> IsHex(s[i]) }

  /** What every digest looks like: 64 hex characters. */
  ghost predicate HexDigests(hash: Hash) {
    forall x {:trigger IsDigest(hash(x))} :: IsDigest(hash(x))
  }

  function LastHash(log: seq<AuditRow>): string {
    if log == [] then "" else log[|log| - 1].chainHash
  }

  function NewRow(hash: Hash, log: seq<AuditRow>, txId: string, p: Payload): AuditRow {
    AuditRow(txId, p, LastHash(log), hash(LastHash(log) + Render(p)))
  }

  /** Each row stores its predecessor's hash and the hash of that text followed by its own payload. */
  predicate WellChained(hash: Hash, log: seq<AuditRow>) {
    log == [] ||
    var front, e := log[..|log| - 1], log[|log| - 1];
    WellChained(hash, front) && e == NewRow(hash, front, e.txId, e.payload)
  }

  /** The texts a log's chain hashes were computed from. */
  function Hashed(log: seq<AuditRow>): set<string> {
    set i | 0 <= i < |log| :: log[i].prevHash + Render(log[i].payload)
  }

  ghost predicate NoCollision(hash: Hash, texts: set<string>) {
    forall x, y {:trigger x in texts, y in texts} :: x in texts && y in texts && hash(x) == hash(y) ==> x == y
  }

  function Payloads(log: seq<AuditRow>): seq<Payload> {
    seq(|log|, i requires 0 <= i < |log| => log[i].payload)
  }

  lemma HeadShape(hash: Hash, log: seq<AuditRow>)
    requires HexDigests(hash) && WellChained(hash, log)
    ensures if log == [] then LastHash(log) == "" else IsDigest(LastHash(log))
  {
    if log != [] {
      var e := log[|log| - 1];
      assert IsDigest(hash(e.prevHash + Render(e.payload)));
    }
  }

  lemma SplitAtDigest(hash: Hash, a: seq<AuditRow>, b: seq<AuditRow>, p: Payload, q: Payload)
    requires HexDigests(hash) && WellChained(hash, a) && WellChained(hash, b)
    requires LastHash(a) + Render(p) == LastHash(b) + Render(q)
    ensures LastHash(a) == LastHash(b) && p == q
  {
    RenderStart(p);
    RenderStart(q);
    HeadShape(hash, a);
    HeadShape(hash, b);
    var s, t := LastHash(a) + Render(p), LastHash(b) + Render(q);
    assert s[0] == if a == [] then '{' else LastHash(a)[0];
    assert t[0] == if b == [] then '{' else LastHash(b)[0];
    SameCut(LastHash(a), LastHash(b), Render(p), Render(q));
    RenderInjective(p, q);
  }

  lemma HeadStep(hash: Hash, a: seq<AuditRow>, b: seq<AuditRow>)
    requires HexDigests(hash) && NoCollision(hash, Hashed(a) + Hashed(b)) && a != [] && b != []
    requires WellChained(hash, a) && WellChained(hash, b) && LastHash(a) == LastHash(b)
    ensures var n, m := |a| - 1, |b| - 1; LastHash(a[..n]) == LastHash(b[..m]) && a[n].payload == b[m].payload
  {
    var n, m := |a| - 1, |b| - 1;
    var s, t := a[n].prevHash + Render(a[n].payload), b[m].prevHash + Render(b[m].payload);
    assert s in Hashed(a) && t in Hashed(b) && hash(s) == hash(t);
    SplitAtDigest(hash, a[..n], b[..m], a[n].payload, b[m].payload);
  }

  lemma NoCollisionWithin(hash: Hash, all: set<string>, some: set<string>)
    requires NoCollision(hash, all) && some <= all
    ensures NoCollision(hash, some)
  {
  }

  lemma Front(hash: Hash, log: seq<AuditRow>)
    requires log != [] && WellChained(hash, log)
    ensures var front := log[..|log| - 1];
            WellChained(hash, front) && Hashed(front) <= Hashed(log) && Payloads(log) == Payloads(front) + [log[|log| - 1].payload]
  {
    var front := log[..|log| - 1];
    forall x | x in Hashed(front) ensures x in Hashed(log) {
      var i :| 0 <= i < |front| && x == front[i].prevHash + Render(front[i].payload);
      assert front[i] == log[i];
    }
  }

  lemma FrontsAlike(hash: Hash, a: seq<AuditRow>, b: seq<AuditRow>)
    requires HexDigests(hash) && NoCollision(hash, Hashed(a) + Hashed(b)) && a != [] && b != []
    requires WellChained(hash, a) && WellChained(hash, b) && LastHash(a) == LastHash(b)
    ensures var c, d := a[..|a| - 1], b[..|b| - 1];
            && WellChained(hash, c) && WellChained(hash, d) && LastHash(c) == LastHash(d)
            && NoCollision(hash, Hashed(c) + Hashed(d))
            && Payloads(a) == Payloads(c) + [a[|a| - 1].payload] && Payloads(b) == Payloads(d) + [a[|a| - 1].payload]
  {
    HeadStep(hash, a, b);
    Front(hash, a);
    Front(hash, b);
    NoCollisionWithin(hash, Hashed(a) + Hashed(b), Hashed(a[..|a| - 1]) + Hashed(b[..|b| - 1]));
  }

  lemma BothEmpty(hash: Hash, a: seq<AuditRow>, b: seq<AuditRow>)
    requires HexDigests(hash) && WellChained(hash, a) && WellChained(hash, b) && LastHash(a) == LastHash(b)
    ensures a == [] <==> b == []
  {
    HeadShape(hash, a);
    HeadShape(hash, b);
  }

  /** Equal chain heads bind equal histories: the same number of rows and the same payloads in order. */
  lemma {:induction false} HeadBindsPayloads(hash: Hash, a: seq<AuditRow>, b: seq<AuditRow>)
    requires HexDigests(hash) && NoCollision(hash, Hashed(a) + Hashed(b))
    requires WellChained(hash, a) && WellChained(hash, b) && LastHash(a) == LastHash(b)
    ensures |a| == |b| && Payloads(a) == Payloads(b)
    decreases |a|
  {
    BothEmpty(hash, a, b);
    if a != [] {
      FrontsAlike(hash, a, b);
      HeadBindsPayloads(hash, a[..|a| - 1], b[..|b| - 1]);
    }
  }

  /** With the tx_id column as well, equal heads mean the same log and so the same token table. */
  lemma {:induction false} HeadAndIdsBindTable(hash: Hash, a: seq<AuditRow>, b: seq<AuditRow>)
    requires HexDigests(hash) && NoCollision(hash, Hashed(a) + Hashed(b))
    requires WellChained(hash, a) && WellChained(hash, b) && LastHash(a) == LastHash(b) && TxIds(a) == TxIds(b)
    ensures a == b && Replay(a) == Replay(b)
  {
    HeadBindsPayloads(hash, a, b);
    SameColumns(hash, a, b);
  }

  lemma {:induction false} SameColumns(hash: Hash, a: seq<AuditRow>, b: seq<AuditRow>)
    requires WellChained(hash, a) && WellChained(hash, b)
    requires |a| == |b| && Payloads(a) == Payloads(b) && TxIds(a) == TxIds(b)
    ensures a == b
    decreases |a|
  {
    if a != [] {
      var n := |a| - 1;
      assert Payloads(a[..n]) == Payloads(a)[..n] && Payloads(b[..n]) == Payloads(b)[..n];
      assert TxIds(a[..n]) == TxIds(a)[..n] && TxIds(b[..n]) == TxIds(b)[..n];
      assert Payloads(a)[n] == Payloads(b)[n] && TxIds(a)[n] == TxIds(b)[n];
      SameColumns(hash, a[..n], b[..n]);
      assert a == a[..n] + [a[n]] && b == b[..n] + [b[n]];
    }
  }

  // ---------- what the head leaves open ----------

  /** The tokens minted by a log, with the rows they start with. */
  function MintRows(log: seq<AuditRow>): Utxos {
    if log == [] then map[] else
      var front, e := MintRows(log[..|log| - 1]), log[|log| - 1];
      if e.payload.Mint? then front + Created(e.txId, e.payload) else front
  }

  /** The tokens created by transfers: the payloads alone name them. */
  function TransferRows(ps: seq<Payload>): Utxos {
    if ps == [] then map[] else
      var front, p := TransferRows(ps[..|ps| - 1]), ps[|ps| - 1];
      if p.Transfer? then front + OutRows(p.outputs, p.currency) else front
  }

  /** The status the payloads leave a token with. */
  function FinalStatus(ps: seq<Payload>, id: string): Status {
    if ps == [] then Unspent
    else
      var p := ps[|ps| - 1];
      if id in Consumed(p) then Leaves(p) else FinalStatus(ps[..|ps| - 1], id)
  }

  function WithStatuses(t: Utxos, ps: seq<Payload>): Utxos {
    map id | id in t :: t[id].(status := FinalStatus(ps, id))
  }

  lemma PayloadsFront(log: seq<AuditRow>)
    requires log != []
    ensures Payloads(log)[..|log| - 1] == Payloads(log[..|log| - 1]) && Payloads(log)[|log| - 1] == log[|log| - 1].payload
  {
  }

  ghost predicate AllUnspent(t: Utxos) {
    forall id :: id in t ==> t[id].status == Unspent
  }

  /** A legal log's table is its mint rows and transfer rows, two disjoint sets of tokens, with their final statuses. */
  lemma {:induction false} TableSplits(log: seq<AuditRow>)
    requires LegalLog(log)
    ensures Replay(log) == WithStatuses(MintRows(log) + TransferRows(Payloads(log)), Payloads(log))
    ensures MintRows(log).Keys !! TransferRows(Payloads(log)).Keys && AllUnspent(MintRows(log))
  {
    if log != [] {
      var n := |log| - 1;
      TableSplits(log[..n]);
      PayloadsFront(log);
      SplitStep(log[..n], log[n]);
      assert log[..n] + [log[n]] == log;
    }
  }

  /** One more payload: consumed tokens take its status, created ones join. */
  lemma SettledStep(base: Utxos, ps: seq<Payload>, p: Payload, made: Utxos)
    requires AllUnspent(made) && made.Keys !! base.Keys
    requires forall id :: id in made ==> id !in Consumed(p) && FinalStatus(ps, id) == Unspent
    ensures Mark(WithStatuses(base, ps), Consumed(p), Leaves(p)) + made == WithStatuses(base + made, ps + [p])
  {
    assert (ps + [p])[..|ps|] == ps;
    var l, r := Mark(WithStatuses(base, ps), Consumed(p), Leaves(p)) + made, WithStatuses(base + made, ps + [p]);
    forall id | id in l ensures l[id] == r[id] {
    }
  }

  lemma MadeIsNew(log: seq<AuditRow>, e: AuditRow)
    requires LegalLog(log) && EntryOk(Replay(log), e.txId, e.payload)
    ensures var made := Created(e.txId, e.payload);
            && AllUnspent(made) && made.Keys !! Replay(log).Keys
            && forall id :: id in made ==> id !in Consumed(e.payload) && FinalStatus(Payloads(log), id) == Unspent
  {
    forall id | id in Created(e.txId, e.payload)
      ensures id !in Replay(log) && id !in Consumed(e.payload) && Created(e.txId, e.payload)[id].status == Unspent
      ensures FinalStatus(Payloads(log), id) == Unspent
    {
      CreatedFresh(Replay(log), e.txId, e.payload, id);
      CreatedUnspent(e.txId, e.payload, id);
      NotConsumedYet(log, id);
    }
  }

  lemma RowsStep(log: seq<AuditRow>, e: AuditRow)
    ensures MintRows(log + [e]) == if e.payload.Mint? then MintRows(log) + Created(e.txId, e.payload) else MintRows(log)
    ensures TransferRows(Payloads(log + [e])) ==
            if e.payload.Transfer? then TransferRows(Payloads(log)) + Created(e.txId, e.payload) else TransferRows(Payloads(log))
  {
    assert (log + [e])[..|log|] == log;
    PayloadsFront(log + [e]);
  }

  lemma RowsJoin(m: Utxos, k: Utxos, made: Utxos)
    requires made.Keys !! (m + k).Keys
    ensures (m + made) + k == (m + k) + made && m + (k + made) == (m + k) + made
  {
  }

  /** The mint rows and transfer rows of a longer log: one side has grown by what the entry made. */
  lemma RowsUnion(log: seq<AuditRow>, e: AuditRow)
    requires MintRows(log).Keys !! TransferRows(Payloads(log)).Keys && AllUnspent(MintRows(log))
    requires AllUnspent(Created(e.txId, e.payload))
    requires Created(e.txId, e.payload).Keys !! (MintRows(log) + TransferRows(Payloads(log))).Keys
    ensures var all := log + [e];
            && MintRows(all).Keys !! TransferRows(Payloads(all)).Keys && AllUnspent(MintRows(all))
            && MintRows(all) + TransferRows(Payloads(all)) ==
               MintRows(log) + TransferRows(Payloads(log)) + Created(e.txId, e.payload)
  {
    RowsStep(log, e);
    RowsJoin(MintRows(log), TransferRows(Payloads(log)), Created(e.txId, e.payload));
  }

  lemma SplitStep(log: seq<AuditRow>, e: AuditRow)
    requires LegalLog(log) && EntryOk(Replay(log), e.txId, e.payload)
    requires Replay(log) == WithStatuses(MintRows(log) + TransferRows(Payloads(log)), Payloads(log))
    requires MintRows(log).Keys !! TransferRows(Payloads(log)).Keys && AllUnspent(MintRows(log))
    ensures var all := log + [e];
            && Replay(all) == WithStatuses(MintRows(all) + TransferRows(Payloads(all)), Payloads(all))
            && MintRows(all).Keys !! TransferRows(Payloads(all)).Keys && AllUnspent(MintRows(all))
  {
    var base := MintRows(log) + TransferRows(Payloads(log));
    assert Replay(log).Keys == base.Keys;
    MadeIsNew(log, e);
    RowsUnion(log, e);
    ReplayOneMore(log, e, base);
  }

  lemma ReplayOneMore(log: seq<AuditRow>, e: AuditRow, base: Utxos)
    requires Replay(log) == WithStatuses(base, Payloads(log)) && AllUnspent(Created(e.txId, e.payload))
    requires Created(e.txId, e.payload).Keys !! base.Keys
    requires forall id :: id in Created(e.txId, e.payload) ==>
               id !in Consumed(e.payload) && FinalStatus(Payloads(log), id) == Unspent
    ensures Replay(log + [e]) == WithStatuses(base + Created(e.txId, e.payload), Payloads(log + [e]))
  {
    LegalAppend(log, e);
    SettledStep(base, Payloads(log), e.payload, Created(e.txId, e.payload));
    assert Payloads(log + [e]) == Payloads(log) + [e.payload];
  }

  lemma NotConsumedYet(log: seq<AuditRow>, id: string)
    requires LegalLog(log) && id !in Replay(log)
    ensures FinalStatus(Payloads(log), id) == Unspent
    decreases |log|
  {
    if log != [] {
      var n := |log| - 1;
      PayloadsFront(log);
      NotConsumedYet(log[..n], id);
    }
  }

  /** Mint rows can be read back off the table. */
  lemma MintRowsOfTable(m: Utxos, k: Utxos, transfers: Utxos, ps: seq<Payload>)
    requires m.Keys !! transfers.Keys && k.Keys !! transfers.Keys && AllUnspent(m) && AllUnspent(k)
    requires WithStatuses(m + transfers, ps) == WithStatuses(k + transfers, ps)
    ensures m == k
  {
    assert (m + transfers).Keys == WithStatuses(m + transfers, ps).Keys == (k + transfers).Keys;
    forall id | id in m ensures id in k && m[id] == k[id] {
      assert id in k + transfers;
      assert WithStatuses(m + transfers, ps)[id] == WithStatuses(k + transfers, ps)[id];
    }
    forall id | id in k ensures id in m {
      assert id in m + transfers;
    }
  }

  /** Equal heads bind the payloads; they bind the table exactly when the MINT rows carry the same ids. */
  lemma HeadBindsTableIff(hash: Hash, a: seq<AuditRow>, b: seq<AuditRow>)
    requires HexDigests(hash) && NoCollision(hash, Hashed(a) + Hashed(b)) && LegalLog(a) && LegalLog(b)
    requires WellChained(hash, a) && WellChained(hash, b) && LastHash(a) == LastHash(b)
    ensures Payloads(a) == Payloads(b)
    ensures Replay(a) == Replay(b) <==> MintRows(a) == MintRows(b)
  {
    HeadBindsPayloads(hash, a, b);
    TableSplits(a);
    TableSplits(b);
    if Replay(a) == Replay(b) {
      MintRowsOfTable(MintRows(a), MintRows(b), TransferRows(Payloads(a)), Payloads(a));
    }
  }

  /** The head alone does not name minted tokens: tx_id is not hashed, so two tables can share a head. */
  lemma {:induction false} HeadOmitsMintIds(hash: Hash, p: Payload, x: string, y: string)
    requires p.Mint? && x != y
    ensures var a, b := [NewRow(hash, [], x, p)], [NewRow(hash, [], y, p)];
            && WellChained(hash, a) && WellChained(hash, b) && LegalLog(a) && LegalLog(b)
            && LastHash(a) == LastHash(b) && Replay(a).Keys == {x} && Replay(b).Keys == {y}
  {
    forall id ensures var a := [NewRow(hash, [], id, p)];
                      WellChained(hash, a) && LegalLog(a) && LastHash(a) == hash(Render(p)) && Replay(a).Keys == {id} {
      var e := NewRow(hash, [], id, p);
      assert [] + [e] == [e] && [e][..0] == [];
      assert "" + Render(p) == Render(p);
      LegalAppend([], e);
    }
  }
}
