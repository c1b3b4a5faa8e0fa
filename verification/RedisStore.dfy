/** The Redis ledger: command pipelines over tokens, owner sets and replay keys, with WATCH versions. */
module RedisStore {
  import opened Prelude
  import opened Decimal
  import opened TxRules
  import opened Tokens
  import opened Payments

  const REPLAY_TTL := 86400 * 7

  type Owners = map<string, set<string>>

  /** The keys a transaction watches. */
  datatype Key = UtxoKey(id: string) | TxKey(h: string)

  datatype LogEntry = LogEntry(txId: string, inputs: seq<string>, outputs: seq<Output>, fee: string)

  /** Redis as this store uses it; replay keys carry their expiry, versions count the changes of a key. */
  datatype Db = Db(utxos: Tokens, owners: Owners, txKeys: map<string, int>, stream: seq<LogEntry>, versions: map<Key, nat>)

  datatype Cmd =
    | SetTx(h: string, expires: int) | DelTx(h: string)
    | SetUtxo(id: string, u: Utxo) | DelUtxo(id: string)
    | SAdd(owner: string, id: string) | SRem(owner: string, id: string) | DelOwner(owner: string)
    | XAdd(entry: LogEntry)

  function Version(db: Db, k: Key): nat {
    if k in db.versions then db.versions[k] else 0
  }

  function Touch(db: Db, k: Key): Db {
    db.(versions := db.versions[k := Version(db, k) + 1])
  }

  /** An emptied set disappears. */
  function SetBucket(owners: Owners, owner: string, ids: set<string>): Owners {
    if ids == {} then owners - {owner} else owners[owner := ids]
  }

  lemma BucketSet(owners: Owners, owner: string, ids: set<string>)
    ensures forall o :: Bucket(SetBucket(owners, owner, ids), o) == if o == owner then ids else Bucket(owners, o)
  {
  }

  lemma ElemsSnoc(s: seq<string>, x: string)
    ensures Elems(s + [x]) == Elems(s) + {x}
  {
  }

  function Do(db: Db, cmd: Cmd): Db {
    match cmd
    case SetTx(h, expires) => Touch(db.(txKeys := db.txKeys[h := expires]), TxKey(h))
    case DelTx(h) => if h in db.txKeys then Touch(db.(txKeys := db.txKeys - {h}), TxKey(h)) else db
    case SetUtxo(id, u) => Touch(db.(utxos := db.utxos[id := u]), UtxoKey(id))
    case DelUtxo(id) => if id in db.utxos then Touch(db.(utxos := db.utxos - {id}), UtxoKey(id)) else db
    case SAdd(owner, id) => db.(owners := SetBucket(db.owners, owner, Bucket(db.owners, owner) + {id}))
    case SRem(owner, id) => db.(owners := SetBucket(db.owners, owner, Bucket(db.owners, owner) - {id}))
    case DelOwner(owner) => db.(owners := db.owners - {owner})
    case XAdd(entry) => db.(stream := db.stream + [entry])
  }

  function Exec(db: Db, cmds: seq<Cmd>): Db {
    if cmds == [] then db else Do(Exec(db, cmds[..|cmds| - 1]), cmds[|cmds| - 1])
  }

  lemma ExecOne(db: Db, cmds: seq<Cmd>, cmd: Cmd)
    ensures Exec(db, cmds + [cmd]) == Do(Exec(db, cmds), cmd)
  {
    assert (cmds + [cmd])[..|cmds|] == cmds;
  }

  lemma ExecTwo(db: Db, cmds: seq<Cmd>, a: Cmd, b: Cmd)
    ensures Exec(db, cmds + [a, b]) == Do(Do(Exec(db, cmds), a), b)
  {
    assert cmds + [a, b] == (cmds + [a]) + [b];
    ExecOne(db, cmds, a);
    ExecOne(db, cmds + [a], b);
  }

  lemma {:induction false} ExecAppend(db: Db, a: seq<Cmd>, b: seq<Cmd>)
    ensures Exec(db, a + b) == Exec(Exec(db, a), b)
  {
    if b == [] {
      assert a + b == a;
    } else {
      ExecAppend(db, a, b[..|b| - 1]);
      assert (a + b)[..|a + b| - 1] == a + b[..|b| - 1];
    }
  }

  // ---------- versions tell the truth ----------

  /** Versions only grow, and a key whose version stands still holds what it held. */
  ghost predicate Tame(db: Db, later: Db) {
    && (forall k :: Version(later, k) >= Version(db, k))
    && (forall id :: Version(later, UtxoKey(id)) == Version(db, UtxoKey(id)) ==>
          (id in later.utxos <==> id in db.utxos) && (id in db.utxos ==> later.utxos[id] == db.utxos[id]))
    && (forall h :: Version(later, TxKey(h)) == Version(db, TxKey(h)) ==> (h in later.txKeys <==> h in db.txKeys))
  }

  lemma DoIsTame(db: Db, cmd: Cmd)
    ensures Tame(db, Do(db, cmd))
  {
  }

  lemma TameTransitive(a: Db, b: Db, c: Db)
    requires Tame(a, b) && Tame(b, c)
    ensures Tame(a, c)
  {
  }

  lemma {:induction false} ExecIsTame(db: Db, cmds: seq<Cmd>)
    ensures Tame(db, Exec(db, cmds))
  {
    if cmds != [] {
      var mid := Exec(db, cmds[..|cmds| - 1]);
      ExecIsTame(db, cmds[..|cmds| - 1]);
      DoIsTame(mid, cmds[|cmds| - 1]);
      TameTransitive(db, mid, Exec(db, cmds));
    }
  }

  // ---------- the pipeline of a transaction ----------

  function SpendCmds(ids: seq<string>, us: seq<Utxo>): seq<Cmd>
    requires |ids| == |us|
  {
    if ids == [] then [] else
      var n := |ids| - 1;
      SpendCmds(ids[..n], us[..n]) + [DelUtxo(ids[n]), SRem(us[n].owner, ids[n])]
  }

  function MakeCmds(ids: seq<string>, us: seq<Utxo>): seq<Cmd>
    requires |ids| == |us|
  {
    if ids == [] then [] else
      var n := |ids| - 1;
      MakeCmds(ids[..n], us[..n]) + [SetUtxo(ids[n], us[n]), SAdd(us[n].owner, ids[n])]
  }

  function Entry(tx: Tx, h: string): LogEntry {
    LogEntry(h, InputIds(tx), tx.outputs, FeeText(tx))
  }

  /** Everything queued between MULTI and EXEC. */
  function Pipeline(tx: Tx, h: string, fetched: seq<Utxo>, feeCollector: string, ids: seq<string>, now: int): seq<Cmd>
    requires |fetched| == |tx.inputs| > 0 && |ids| == IdsNeeded(tx)
  {
    [SetTx(h, now + REPLAY_TTL)] + SpendCmds(InputIds(tx), fetched)
    + MakeCmds(ids, Made(tx, feeCollector, fetched[0].currency)) + [XAdd(Entry(tx, h))]
  }

  function OwnedAmong(ids: seq<string>, us: seq<Utxo>, owner: string): set<string>
    requires |ids| == |us|
  {
    set i | 0 <= i < |ids| && us[i].owner == owner :: ids[i]
  }

  lemma OwnedAmongSplit(ids: seq<string>, us: seq<Utxo>, owner: string)
    requires |ids| == |us| && ids != []
    ensures var n := |ids| - 1;
            OwnedAmong(ids, us, owner) == OwnedAmong(ids[..n], us[..n], owner) + if us[n].owner == owner then {ids[n]} else {}
  {
    var n := |ids| - 1;
    forall id | id in OwnedAmong(ids[..n], us[..n], owner) ensures id in OwnedAmong(ids, us, owner) {
      var i :| 0 <= i < n && us[..n][i].owner == owner && ids[..n][i] == id;
      assert us[i].owner == owner && ids[i] == id;
    }
    forall id | id in OwnedAmong(ids, us, owner) && !(us[n].owner == owner && id == ids[n])
      ensures id in OwnedAmong(ids[..n], us[..n], owner)
    {
      var i :| 0 <= i < |ids| && us[i].owner == owner && ids[i] == id;
      assert us[..n][i].owner == owner && ids[..n][i] == id;
    }
  }

  lemma SpendOne(db: Db, id: string, u: Utxo)
    ensures var r := Do(Do(db, DelUtxo(id)), SRem(u.owner, id));
            && r.utxos == db.utxos - {id} && r.txKeys == db.txKeys && r.stream == db.stream
            && forall o :: Bucket(r.owners, o) == Bucket(db.owners, o) - if o == u.owner then {id} else {}
  {
    BucketSet(db.owners, u.owner, Bucket(db.owners, u.owner) - {id});
  }

  lemma {:induction false} SpendEffect(db: Db, ids: seq<string>, us: seq<Utxo>)
    requires |ids| == |us|
    ensures var r := Exec(db, SpendCmds(ids, us));
            && r.utxos == db.utxos - Elems(ids) && r.txKeys == db.txKeys && r.stream == db.stream
            && forall o :: Bucket(r.owners, o) == Bucket(db.owners, o) - OwnedAmong(ids, us, o)
  {
    if ids != [] {
      var n := |ids| - 1;
      SpendEffect(db, ids[..n], us[..n]);
      ExecTwo(db, SpendCmds(ids[..n], us[..n]), DelUtxo(ids[n]), SRem(us[n].owner, ids[n]));
      SpendOne(Exec(db, SpendCmds(ids[..n], us[..n])), ids[n], us[n]);
      ElemsSplit(ids);
      forall o ensures Bucket(Exec(db, SpendCmds(ids, us)).owners, o) == Bucket(db.owners, o) - OwnedAmong(ids, us, o) {
        OwnedAmongSplit(ids, us, o);
      }
    }
  }

  lemma MakeOne(db: Db, id: string, u: Utxo)
    ensures var r := Do(Do(db, SetUtxo(id, u)), SAdd(u.owner, id));
            && r.utxos == db.utxos[id := u] && r.txKeys == db.txKeys && r.stream == db.stream
            && forall o :: Bucket(r.owners, o) == Bucket(db.owners, o) + if o == u.owner then {id} else {}
  {
    BucketSet(db.owners, u.owner, Bucket(db.owners, u.owner) + {id});
  }

  lemma {:induction false} MakeEffect(db: Db, ids: seq<string>, us: seq<Utxo>)
    requires |ids| == |us|
    ensures var r := Exec(db, MakeCmds(ids, us));
            && r.utxos == Put(db.utxos, ids, us) && r.txKeys == db.txKeys && r.stream == db.stream
            && forall o :: Bucket(r.owners, o) == Bucket(db.owners, o) + OwnedAmong(ids, us, o)
  {
    if ids != [] {
      var n := |ids| - 1;
      MakeEffect(db, ids[..n], us[..n]);
      ExecTwo(db, MakeCmds(ids[..n], us[..n]), SetUtxo(ids[n], us[n]), SAdd(us[n].owner, ids[n]));
      MakeOne(Exec(db, MakeCmds(ids[..n], us[..n])), ids[n], us[n]);
      forall o ensures Bucket(Exec(db, MakeCmds(ids, us)).owners, o) == Bucket(db.owners, o) + OwnedAmong(ids, us, o) {
        OwnedAmongSplit(ids, us, o);
      }
    }
  }

  /** What EXEC of a transaction's pipeline leaves: the same tokens as the atomic ledger step, the replay key set,
      the entry logged, and each owner set minus its spent members plus its new ones. */
  lemma PipelineEffect(db: Db, tx: Tx, h: string, fetched: seq<Utxo>, feeCollector: string, ids: seq<string>, now: int)
    requires |fetched| == |tx.inputs| > 0 && |ids| == IdsNeeded(tx)
    ensures var r := Exec(db, Pipeline(tx, h, fetched, feeCollector, ids, now));
            var made := Made(tx, feeCollector, fetched[0].currency);
            && r.utxos == After(db.utxos, tx, feeCollector, fetched[0].currency, ids)
            && r.txKeys == db.txKeys[h := now + REPLAY_TTL] && r.stream == db.stream + [Entry(tx, h)]
            && forall o :: Bucket(r.owners, o) ==
                 Bucket(db.owners, o) - OwnedAmong(InputIds(tx), fetched, o) + OwnedAmong(ids, made, o)
  {
    var made := Made(tx, feeCollector, fetched[0].currency);
    ExecOfPipeline(db, tx, h, fetched, feeCollector, ids, now);
    FrameEffect(db, h, now + REPLAY_TTL, InputIds(tx), fetched, ids, made, Entry(tx, h));
    assert After(db.utxos, tx, feeCollector, fetched[0].currency, ids) == Put(db.utxos - Elems(InputIds(tx)), ids, made);
  }

  lemma FrameEffect(db: Db, h: string, expires: int, ins: seq<string>, fetched: seq<Utxo>, ids: seq<string>, made: seq<Utxo>, entry: LogEntry)
    requires |ins| == |fetched| && |ids| == |made|
    ensures var r := Do(Exec(Exec(Do(db, SetTx(h, expires)), SpendCmds(ins, fetched)), MakeCmds(ids, made)), XAdd(entry));
            && r.utxos == Put(db.utxos - Elems(ins), ids, made)
            && r.txKeys == db.txKeys[h := expires] && r.stream == db.stream + [entry]
            && forall o :: Bucket(r.owners, o) == Bucket(db.owners, o) - OwnedAmong(ins, fetched, o) + OwnedAmong(ids, made, o)
  {
    SwapEffect(Do(db, SetTx(h, expires)), ins, fetched, ids, made);
  }

  lemma SwapEffect(db: Db, ins: seq<string>, fetched: seq<Utxo>, ids: seq<string>, made: seq<Utxo>)
    requires |ins| == |fetched| && |ids| == |made|
    ensures var r := Exec(Exec(db, SpendCmds(ins, fetched)), MakeCmds(ids, made));
            && r.utxos == Put(db.utxos - Elems(ins), ids, made) && r.txKeys == db.txKeys && r.stream == db.stream
            && forall o :: Bucket(r.owners, o) == Bucket(db.owners, o) - OwnedAmong(ins, fetched, o) + OwnedAmong(ids, made, o)
  {
    SpendEffect(db, ins, fetched);
    MakeEffect(Exec(db, SpendCmds(ins, fetched)), ids, made);
  }

  lemma ExecOfPipeline(db: Db, tx: Tx, h: string, fetched: seq<Utxo>, feeCollector: string, ids: seq<string>, now: int)
    requires |fetched| == |tx.inputs| > 0 && |ids| == IdsNeeded(tx)
    ensures var first := Do(db, SetTx(h, now + REPLAY_TTL));
            var spent := Exec(first, SpendCmds(InputIds(tx), fetched));
            var made := Exec(spent, MakeCmds(ids, Made(tx, feeCollector, fetched[0].currency)));
            Exec(db, Pipeline(tx, h, fetched, feeCollector, ids, now)) == Do(made, XAdd(Entry(tx, h)))
  {
    var made := Made(tx, feeCollector, fetched[0].currency);
    var a, b, c := [SetTx(h, now + REPLAY_TTL)], SpendCmds(InputIds(tx), fetched), MakeCmds(ids, made);
    assert [] + a == a;
    ExecOne(db, [], a[0]);
    ExecAppend(db, a, b);
    ExecAppend(db, a + b, c);
    ExecOne(db, a + b + c, XAdd(Entry(tx, h)));
  }

  /** Every live token is in its owner's set, and no set lists a live token of another owner. */
  ghost predicate Indexed(db: Db) {
    && (forall id :: id in db.utxos ==> id in Bucket(db.owners, db.utxos[id].owner))
    && (forall o, id :: id in Bucket(db.owners, o) && id in db.utxos ==> db.utxos[id].owner == o)
  }

  lemma LiveMembers(db: Db, owner: string)
    requires Indexed(db)
    ensures Bucket(db.owners, owner) * db.utxos.Keys == Owned(db.utxos, owner)
  {
  }

  /** The first reason to refuse a transaction, in the order of the checks. */
  function Refusal(c: Crypto, db: Db, tx: Tx, now: int): (e: Option<Error>)
    ensures e.None? <==> TxId(c, tx) !in db.txKeys && Admits(c, Redis, db.utxos, tx, now)
  {
    var pre, h := PreCheck(c, Redis, tx), TxId(c, tx);
    if pre.Some? then pre
    else if h in db.txKeys then Some(AlreadyProcessed)
    else if !Present(db.utxos, tx) then Some(MissingInput)
    else IntentError(c, Redis, h, tx, Fetched(db.utxos, tx), now)
  }

  /** Exactly the transactions pass whose replay key is not set, whose inputs are all there and that are sound. */
  lemma PassesIff(c: Crypto, db: Db, tx: Tx, now: int)
    ensures Refusal(c, db, tx, now).None? <==>
            && TxId(c, tx) !in db.txKeys
            && tx.inputs != [] && (forall i :: 0 <= i < |tx.inputs| ==> tx.inputs[i].tokenId in db.utxos)
            && Sound(c, Redis, tx, Fetched(db.utxos, tx), now)
    ensures (forall e: Error :: !PreWrong(c, Redis, tx, e)) ==>
              if TxId(c, tx) in db.txKeys then Refusal(c, db, tx, now) == Some(AlreadyProcessed)
              else (exists i :: 0 <= i < |tx.inputs| && tx.inputs[i].tokenId !in db.utxos) ==>
                Refusal(c, db, tx, now) == Some(MissingInput)
  {
    AdmitsIff(c, Redis, db.utxos, tx, now);
    PresentIff(db.utxos, tx);
    PreCheckReports(c, Redis, tx);
  }

  /** One transaction recorded: its replay key for a week, and an entry with its digest, inputs, outputs and fee. */
  ghost predicate Records(before: Db, after: Db, tx: Tx, h: string, now: int) {
    && after.txKeys == before.txKeys[h := now + 604_800]
    && |after.stream| == |before.stream| + 1 && before.stream <= after.stream && Logs(after.stream[|before.stream|], tx, h)
  }

  ghost predicate Logs(entry: LogEntry, tx: Tx, h: string) {
    && entry.txId == h && |entry.inputs| == |tx.inputs| && (forall i :: 0 <= i < |tx.inputs| ==> entry.inputs[i] == tx.inputs[i].tokenId)
    && entry.outputs == tx.outputs && (tx.fee > 0 ==> entry.fee == CentsText(tx.fee))
  }

  /** What the pipeline of an admitted transaction leaves pays as the transaction says, and is recorded. */
  lemma PipelinePays(c: Crypto, db: Db, tx: Tx, admitted: int, feeCollector: string, ids: seq<string>, now: int)
    requires Admits(c, Redis, db.utxos, tx, admitted) && |ids| == IdsNeeded(tx)
    ensures var after := Exec(db, Pipeline(tx, TxId(c, tx), Fetched(db.utxos, tx), feeCollector, ids, now));
            Records(db, after, tx, TxId(c, tx), now)
    ensures var after := Exec(db, Pipeline(tx, TxId(c, tx), Fetched(db.utxos, tx), feeCollector, ids, now));
            FreshIds(ids, db.utxos.Keys) ==>
              PaysOut(db.utxos, after.utxos, tx, feeCollector) && Issues(db.utxos, after.utxos, tx, feeCollector, ids)
  {
    PipelineEffect(db, tx, TxId(c, tx), Fetched(db.utxos, tx), feeCollector, ids, now);
    if FreshIds(ids, db.utxos.Keys) {
      AdmittedPays(c, Redis, db.utxos, tx, admitted, feeCollector, ids);
    }
  }

  // ---------- the store, one caller at a time ----------

  function Flat(pages: seq<seq<string>>): seq<string> {
    if pages == [] then [] else Flat(pages[..|pages| - 1]) + pages[|pages| - 1]
  }

  class Store {
    const crypto: Crypto
    const feeCollector: string
    var db: Db

    constructor (crypto: Crypto, feeCollector: string)
      requires feeCollector != ""
      ensures db == Db(map[], map[], map[], [], map[]) && this.crypto == crypto && this.feeCollector == feeCollector
    {
      this.crypto, this.feeCollector := crypto, feeCollector;
      db := Db(map[], map[], map[], [], map[]);
    }

    method AddUtxo(id: string, u: Utxo)
      requires Indexed(db) && id !in db.utxos && forall o :: id !in Bucket(db.owners, o)
      modifies this
      ensures Indexed(db) && db.utxos == old(db).utxos[id := u]
      ensures forall o :: Bucket(db.owners, o) == Bucket(old(db).owners, o) + if o == u.owner then {id} else {}
      ensures db.txKeys == old(db).txKeys && db.stream == old(db).stream
    {
      BucketSet(db.owners, u.owner, Bucket(db.owners, u.owner) + {id});
      db := Do(Do(db, SetUtxo(id, u)), SAdd(u.owner, id));
    }

    /** The pipeline, queued command by command. */
    method Queue(tx: Tx, h: string, fetched: seq<Utxo>, ids: seq<string>, now: int) returns (cmds: seq<Cmd>)
      requires |fetched| == |tx.inputs| > 0 && |ids| == IdsNeeded(tx)
      ensures cmds == Pipeline(tx, h, fetched, feeCollector, ids, now)
    {
      cmds := [SetTx(h, now + REPLAY_TTL)];
      var ins := InputIds(tx);
      for i := 0 to |ins|
        invariant cmds == [SetTx(h, now + REPLAY_TTL)] + SpendCmds(ins[..i], fetched[..i])
      {
        assert ins[..i + 1][..i] == ins[..i] && fetched[..i + 1][..i] == fetched[..i];
        cmds := cmds + [DelUtxo(ins[i]), SRem(fetched[i].owner, ins[i])];
      }
      assert ins[..|ins|] == ins && fetched[..|ins|] == fetched;
      var us := Made(tx, feeCollector, fetched[0].currency);
      for i := 0 to |us|
        invariant cmds == [SetTx(h, now + REPLAY_TTL)] + SpendCmds(ins, fetched) + MakeCmds(ids[..i], us[..i])
      {
        assert ids[..i + 1][..i] == ids[..i] && us[..i + 1][..i] == us[..i];
        cmds := cmds + [SetUtxo(ids[i], us[i]), SAdd(us[i].owner, ids[i])];
      }
      assert ids[..|us|] == ids && us[..|us|] == us;
      cmds := cmds + [XAdd(Entry(tx, h))];
    }

    method ProcessTransaction(tx: Tx, now: int, ids: seq<string>) returns (r: Result<string, Error>)
      requires |ids| == IdsNeeded(tx)
      modifies this
      ensures var e := Refusal(crypto, old(db), tx, now);
              if e.Some? then r == Err(e.value) && db == old(db)
              else r == Ok(TxId(crypto, tx)) &&
                   db == Exec(old(db), Pipeline(tx, TxId(crypto, tx), Fetched(old(db).utxos, tx), feeCollector, ids, now))
      ensures r.Ok? <==>
        && TxId(crypto, tx) !in old(db).txKeys
        && tx.inputs != [] && (forall i :: 0 <= i < |tx.inputs| ==> tx.inputs[i].tokenId in old(db).utxos)
        && Sound(crypto, Redis, tx, Fetched(old(db).utxos, tx), now)
      ensures r.Ok? ==> Records(old(db), db, tx, r.value, now)
      ensures r.Ok? && FreshIds(ids, old(db).utxos.Keys) ==>
        PaysOut(old(db).utxos, db.utxos, tx, feeCollector) && Issues(old(db).utxos, db.utxos, tx, feeCollector, ids)
    {
      PassesIff(crypto, db, tx, now);
      var pre := PreCheck(crypto, Redis, tx);
      if pre.Some? {
        return Err(pre.value);
      }
      var h := TxId(crypto, tx);
      if h in db.txKeys {
        return Err(AlreadyProcessed);
      }
      if exists id :: id in InputIds(tx) && id !in db.utxos {
        return Err(MissingInput);
      }
      var fetched := Fetched(db.utxos, tx);
      var error := ValidateTxIntent(crypto, Redis, h, tx, fetched, now);
      if error.Some? {
        return Err(error.value);
      }
      var cmds := Queue(tx, h, fetched, ids, now);
      PipelinePays(crypto, db, tx, now, feeCollector, ids, now);
      db := Exec(db, cmds);
      r := Ok(h);
    }

    /** GET of every utxo key. */
    method Snapshot() returns (snap: Tokens)
      ensures snap == db.utxos
    {
      snap := map[];
      var todo := db.utxos.Keys;
      while todo != {}
        invariant todo <= db.utxos.Keys && snap == Restrict(db.utxos, db.utxos.Keys - todo)
        decreases todo
      {
        var id :| id in todo;
        snap := snap[id := db.utxos[id]];
        todo := todo - {id};
      }
    }

    method QueueDelUtxos() returns (cmds: seq<Cmd>)
      ensures var r := Exec(db, cmds); r.utxos == map[] && r.owners == db.owners && r.txKeys == db.txKeys && r.stream == db.stream
    {
      cmds := [];
      var todo := db.utxos.Keys;
      while todo != {}
        invariant var r := Exec(db, cmds);
          r.utxos.Keys == todo && r.owners == db.owners && r.txKeys == db.txKeys && r.stream == db.stream
        decreases todo
      {
        var id :| id in todo;
        ExecOne(db, cmds, DelUtxo(id));
        cmds := cmds + [DelUtxo(id)];
        todo := todo - {id};
      }
    }

    method QueueDelOwners(queued: seq<Cmd>) returns (cmds: seq<Cmd>)
      requires Exec(db, queued).owners == db.owners
      ensures Exec(db, cmds) == Exec(db, queued).(owners := map[])
    {
      cmds := queued;
      ghost var start := Exec(db, queued);
      var todo := db.owners.Keys;
      while todo != {}
        invariant Exec(db, cmds) == start.(owners := Exec(db, cmds).owners) && Exec(db, cmds).owners.Keys == todo
        decreases todo
      {
        var o :| o in todo;
        ExecOne(db, cmds, DelOwner(o));
        cmds := cmds + [DelOwner(o)];
        todo := todo - {o};
      }
    }

    method QueueDelTxs(queued: seq<Cmd>) returns (cmds: seq<Cmd>)
      requires Exec(db, queued).txKeys == db.txKeys
      ensures var a, r := Exec(db, queued), Exec(db, cmds);
              r.utxos == a.utxos && r.owners == a.owners && r.txKeys == map[] && r.stream == a.stream
    {
      cmds := queued;
      ghost var start := Exec(db, queued);
      var todo := db.txKeys.Keys;
      while todo != {}
        invariant var r := Exec(db, cmds);
          r.utxos == start.utxos && r.owners == start.owners && r.txKeys.Keys == todo && r.stream == start.stream
        decreases todo
      {
        var h :| h in todo;
        ExecOne(db, cmds, DelTx(h));
        cmds := cmds + [DelTx(h)];
        todo := todo - {h};
      }
    }

    method QueueTokens(queued: seq<Cmd>, snap: Tokens) returns (cmds: seq<Cmd>)
      requires Exec(db, queued).utxos == map[] && Exec(db, queued).owners == map[]
      ensures var a, r := Exec(db, queued), Exec(db, cmds);
              r.utxos == snap && r.owners == IndexOf(snap) && r.txKeys == a.txKeys && r.stream == a.stream
    {
      cmds := queued;
      ghost var start := Exec(db, queued);
      var todo := snap.Keys;
      assert Restrict(snap, {}) == map[] && IndexOf(map[]) == map[];
      while todo != {}
        invariant todo <= snap.Keys
        invariant Exec(db, cmds).utxos == Restrict(snap, snap.Keys - todo)
        invariant Exec(db, cmds).owners == IndexOf(Restrict(snap, snap.Keys - todo))
        invariant Exec(db, cmds).txKeys == start.txKeys && Exec(db, cmds).stream == start.stream
        decreases todo
      {
        var id :| id in todo;
        var u := snap[id];
        RestrictMore(snap, todo, id);
        IndexAdd(Restrict(snap, snap.Keys - todo), id, u);
        ExecTwo(db, cmds, SetUtxo(id, u), SAdd(u.owner, id));
        cmds := cmds + [SetUtxo(id, u), SAdd(u.owner, id)];
        todo := todo - {id};
      }
      assert Restrict(snap, snap.Keys) == snap;
    }

    /** Replaces everything by a snapshot: its tokens, the exact owner index without orphans, no replay keys. */
    method Restore(version: string, snap: Tokens) returns (ok: bool)
      modifies this
      ensures ok <==> version == "1.0"
      ensures !ok ==> db == old(db)
      ensures ok ==> db.utxos == snap && db.owners == IndexOf(snap) && db.txKeys == map[] && db.stream == old(db).stream
      ensures ok && snap == old(db).utxos ==> Reloaded(old(db), db)
    {
      if version != SCHEMA_VERSION {
        return false;
      }
      var cmds := QueueDelUtxos();
      cmds := QueueDelOwners(cmds);
      cmds := QueueDelTxs(cmds);
      cmds := QueueTokens(cmds, snap);
      db := Exec(db, cmds);
      ok := true;
    }

    /** With no one else writing: what the scan returned, added up in its order, and an owner set healed of orphans.
        A member returned twice counts twice. */
    method GetBalance(owner: string, currency: string, now: int, pages: seq<seq<string>>) returns (total: nat)
      requires Indexed(db) && Elems(Flat(pages)) == Bucket(db.owners, owner)
      modifies this
      ensures total == RunningBalance(db.utxos, owner, currency, now, Flat(pages))
      ensures NoDup(Flat(pages)) && Balance(db.utxos, owner, currency, now) <= LIMIT ==>
                total == Balance(db.utxos, owner, currency, now)
      ensures Indexed(db) && db.utxos == old(db).utxos && db.txKeys == old(db).txKeys
      ensures forall o :: Bucket(db.owners, o) == if o == owner then Owned(db.utxos, owner) else Bucket(old(db).owners, o)
    {
      ghost var start := db;
      total := 0;
      var p := 0;
      assert pages[..0] == [] && Elems(Flat(pages[..0])) == {};
      while p < |pages|
        invariant 0 <= p <= |pages|
        invariant total == RunningBalance(start.utxos, owner, currency, now, Flat(pages[..p]))
        invariant Healed(start, db, owner, Elems(Flat(pages[..p])))
      {
        FlatSplit(pages, p);
        ghost var mid := db;
        var orphans;
        total, orphans := AddPage(owner, currency, now, pages[p], total, Flat(pages[..p]));
        Heal(owner, orphans);
        HealedMore(start, mid, db, owner, Elems(Flat(pages[..p])), Elems(pages[p]), Elems(orphans));
        p := p + 1;
      }
      assert pages[..p] == pages;
      HealedFully(start, db, owner);
      BalanceOfMembers(start, owner, currency, now);
      if NoDup(Flat(pages)) {
        RunningBalanceExact(start.utxos, owner, currency, now, Flat(pages));
      }
    }

    /** MGET of one page: add what counts, collect the orphans. */
    method AddPage(owner: string, currency: string, now: int, page: seq<string>, before: nat, ghost seen: seq<string>)
      returns (total: nat, orphans: seq<string>)
      requires forall id :: id in page && id in db.utxos ==> db.utxos[id].owner == owner
      requires before == RunningBalance(db.utxos, owner, currency, now, seen)
      ensures total == RunningBalance(db.utxos, owner, currency, now, seen + page)
      ensures Elems(orphans) == Elems(page) - db.utxos.Keys
    {
      total := before;
      orphans := [];
      assert seen + page[..0] == seen;
      for i := 0 to |page|
        invariant total == RunningBalance(db.utxos, owner, currency, now, seen + page[..i])
        invariant Elems(orphans) == Elems(page[..i]) - db.utxos.Keys
      {
        var id := page[i];
        RunningBalanceSnoc(db.utxos, owner, currency, now, seen + page[..i], id);
        assert seen + page[..i + 1] == seen + page[..i] + [id] && page[..i + 1] == page[..i] + [id];
        ElemsSnoc(page[..i], id);
        ElemsSnoc(orphans, id);
        if id in db.utxos {
          var u := db.utxos[id];
          if u.currency == currency && (u.expiresAt.None? || u.expiresAt.value > now) {
            total := Round28(total + u.amount);
          }
        } else {
          orphans := orphans + [id];
        }
      }
      assert page[..|page|] == page;
    }

    /** The unguarded SREMs, one by one. */
    method Heal(owner: string, orphans: seq<string>)
      modifies this
      ensures db.utxos == old(db).utxos && db.txKeys == old(db).txKeys && db.stream == old(db).stream
      ensures forall o :: Bucket(db.owners, o) == Bucket(old(db).owners, o) - if o == owner then Elems(orphans) else {}
    {
      assert orphans[..0] == [];
      for i := 0 to |orphans|
        invariant db.utxos == old(db).utxos && db.txKeys == old(db).txKeys && db.stream == old(db).stream
        invariant forall o :: Bucket(db.owners, o) == Bucket(old(db).owners, o) - if o == owner then Elems(orphans[..i]) else {}
      {
        assert orphans[..i + 1] == orphans[..i] + [orphans[i]];
        ElemsSnoc(orphans[..i], orphans[i]);
        BucketSet(db.owners, owner, Bucket(db.owners, owner) - {orphans[i]});
        db := Do(db, SRem(owner, orphans[i]));
      }
      assert orphans[..|orphans|] == orphans;
    }
  }

  const SCHEMA_VERSION := "1.0"

  function Restrict(t: Tokens, ids: set<string>): Tokens {
    map id | id in ids && id in t :: t[id]
  }

  lemma RestrictMore(snap: Tokens, todo: set<string>, id: string)
    requires id in todo && todo <= snap.Keys
    ensures id !in Restrict(snap, snap.Keys - todo)
    ensures Restrict(snap, snap.Keys - (todo - {id})) == Restrict(snap, snap.Keys - todo)[id := snap[id]]
  {
  }

  /** db is start with the scanned orphans of one owner removed. */
  ghost predicate Healed(start: Db, db: Db, owner: string, scanned: set<string>) {
    && db.utxos == start.utxos && db.txKeys == start.txKeys
    && forall o :: Bucket(db.owners, o) == Bucket(start.owners, o) - if o == owner then scanned - start.utxos.Keys else {}
  }

  lemma HealedMore(start: Db, mid: Db, db: Db, owner: string, scanned: set<string>, page: set<string>, orphans: set<string>)
    requires Healed(start, mid, owner, scanned) && orphans == page - mid.utxos.Keys
    requires db.utxos == mid.utxos && db.txKeys == mid.txKeys
    requires forall o :: Bucket(db.owners, o) == Bucket(mid.owners, o) - if o == owner then orphans else {}
    ensures Healed(start, db, owner, scanned + page)
  {
  }

  lemma HealedFully(start: Db, db: Db, owner: string)
    requires Indexed(start) && Healed(start, db, owner, Bucket(start.owners, owner))
    ensures Indexed(db)
    ensures forall o :: Bucket(db.owners, o) == if o == owner then Owned(db.utxos, owner) else Bucket(start.owners, o)
  {
    LiveMembers(start, owner);
  }

  lemma SuffixOfPrefix(a: seq<string>, b: seq<string>, all: seq<string>)
    requires a + b <= all
    ensures Elems(a + b) == Elems(a) + Elems(b) && forall id :: id in b ==> id in all
  {
    forall i | 0 <= i < |b| ensures b[i] in all {
      assert all[|a| + i] == (a + b)[|a| + i] == b[i];
    }
  }

  lemma FlatSplit(pages: seq<seq<string>>, p: nat)
    requires p < |pages|
    ensures Flat(pages[..p + 1]) == Flat(pages[..p]) + pages[p]
    ensures Elems(Flat(pages[..p + 1])) == Elems(Flat(pages[..p])) + Elems(pages[p])
    ensures forall id :: id in pages[p] ==> id in Flat(pages)
  {
    assert pages[..p + 1][..p] == pages[..p];
    FlatPrefix(pages, p + 1);
    SuffixOfPrefix(Flat(pages[..p]), pages[p], Flat(pages));
  }

  lemma {:induction false} FlatPrefix(pages: seq<seq<string>>, n: nat)
    requires n <= |pages|
    ensures Flat(pages[..n]) <= Flat(pages)
    decreases |pages|
  {
    if n == |pages| {
      assert pages[..n] == pages;
    } else {
      FlatPrefix(pages[..|pages| - 1], n);
      assert pages[..|pages| - 1][..n] == pages[..n];
    }
  }

  /** Summing over an owner set, orphans included, is summing over the live tokens. */
  lemma BalanceOfMembers(db: Db, owner: string, currency: string, now: int)
    requires Indexed(db)
    ensures SetSum(Bucket(db.owners, owner), BalanceWeight(db.utxos, owner, currency, now)) ==
            Balance(db.utxos, owner, currency, now)
  {
    var w, members := BalanceWeight(db.utxos, owner, currency, now), Bucket(db.owners, owner);
    var live := Owned(db.utxos, owner);
    LiveMembers(db, owner);
    assert members == live + (members - live);
    SetSumUnion(live, members - live, w);
    SetSumZero(members - live, w);
    BalanceOverOwned(db.utxos, owner, currency, now);
  }

  /** The effect of restoring a store from its own snapshot: the same tokens, a rebuilt index, no replay keys. */
  predicate Reloaded(before: Db, after: Db) {
    && after.utxos == before.utxos && after.owners == IndexOf(before.utxos)
    && after.txKeys == map[] && after.stream == before.stream
  }

  /** The index a reload builds is the old one without its orphans, and serves every balance as before. */
  lemma ReloadedIndex(before: Db, after: Db)
    requires Indexed(before) && Reloaded(before, after)
    ensures Indexed(after)
    ensures forall o :: Bucket(after.owners, o) == Bucket(before.owners, o) * before.utxos.Keys
  {
    forall o ensures Bucket(after.owners, o) == Owned(before.utxos, o) == Bucket(before.owners, o) * before.utxos.Keys {
      BucketIsOwned(before.utxos, o);
      LiveMembers(before, o);
    }
  }

  lemma ReloadKeepsBalances(before: Db, after: Db, owner: string, currency: string, now: int)
    requires Indexed(before) && Reloaded(before, after)
    ensures SetSum(Bucket(after.owners, owner), BalanceWeight(after.utxos, owner, currency, now)) ==
            SetSum(Bucket(before.owners, owner), BalanceWeight(before.utxos, owner, currency, now))
  {
    ReloadedIndex(before, after);
    BalanceOfMembers(before, owner, currency, now);
    BalanceOfMembers(after, owner, currency, now);
  }
}
