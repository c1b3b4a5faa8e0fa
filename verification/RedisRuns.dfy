/** The Redis ledger under interleaving: optimistic transactions, additions, replay-key expiry, healing scans and reloads. */
module RedisRuns {
  import opened Prelude
  import opened Decimal
  import opened TxRules
  import opened Tokens
  import opened Payments
  import opened RedisStore

  /** A client between WATCH and EXEC: the versions it watches, and how far it has come. */
  datatype Flight = Flight(tx: Tx, watched: map<Key, nat>, unseen: bool, fetched: seq<Utxo>, checkedAt: Option<int>)

  /** A balance scan: a page of members as SSCAN returned it, or the orphans MGET found in one. */
  datatype Scan = Page(owner: string, ids: set<string>) | Healing(owner: string, orphans: set<string>)

  datatype System = System(db: Db, flights: map<nat, Flight>, scans: map<nat, Scan>, issued: set<string>, applied: seq<Applied>)

  datatype Event =
    | Add(id: string, u: Utxo)
    | Watch(client: nat, tx: Tx)
    | CheckReplay(client: nat)
    | Read(client: nat)
    | Validate(client: nat, now: int)
    | Execute(client: nat, now: int, ids: seq<string>)
    | Expire(h: string, touches: bool)
    | ScanPage(client: nat, owner: string, page: set<string>)
    | ScanRead(client: nat)
    | ScanHeal(client: nat, id: string)
    | Reload(db: Db)

  function WatchKeys(tx: Tx, h: string): set<Key> {
    (set id | id in InputIds(tx) :: UtxoKey(id)) + {TxKey(h)}
  }

  predicate Unchanged(db: Db, watched: map<Key, nat>) {
    forall k :: k in watched ==> Version(db, k) == watched[k]
  }

  function Land(s: System, client: nat): System {
    s.(flights := s.flights - {client})
  }

  predicate Ready(s: System, client: nat) {
    && client in s.flights && s.flights[client].unseen && s.flights[client].checkedAt.Some?
    && |s.flights[client].fetched| == |s.flights[client].tx.inputs| > 0
  }

  /** EXEC goes through: nothing watched has changed, and the drawn ids are new. */
  predicate Commits(s: System, client: nat, ids: seq<string>) {
    && Ready(s, client) && Unchanged(s.db, s.flights[client].watched)
    && |ids| == IdsNeeded(s.flights[client].tx) && FreshIds(ids, s.issued)
  }

  function AddStep(s: System, id: string, u: Utxo): System {
    if id in s.issued then s
    else s.(db := Do(Do(s.db, SetUtxo(id, u)), SAdd(u.owner, id)), issued := s.issued + {id})
  }

  function WatchStep(n: Node, s: System, client: nat, tx: Tx): System {
    var h := TxId(n.crypto, tx);
    if client in s.flights || PreCheck(n.crypto, Redis, tx).Some? then s
    else s.(flights := s.flights[client := Flight(tx, map k | k in WatchKeys(tx, h) :: Version(s.db, k), false, [], None)])
  }

  function ReplayStep(n: Node, s: System, client: nat): System {
    if client !in s.flights || s.flights[client].unseen then s
    else if TxId(n.crypto, s.flights[client].tx) in s.db.txKeys then Land(s, client)
    else s.(flights := s.flights[client := s.flights[client].(unseen := true)])
  }

  function ReadStep(s: System, client: nat): System {
    if client !in s.flights || !s.flights[client].unseen || s.flights[client].fetched != [] then s
    else if !Present(s.db.utxos, s.flights[client].tx) then Land(s, client)
    else s.(flights := s.flights[client := s.flights[client].(fetched := Fetched(s.db.utxos, s.flights[client].tx))])
  }

  function ValidateStep(n: Node, s: System, client: nat, now: int): System {
    if !(client in s.flights && s.flights[client].checkedAt.None?
         && |s.flights[client].fetched| == |s.flights[client].tx.inputs| > 0) then s
    else
      var f := s.flights[client];
      if IntentError(n.crypto, Redis, TxId(n.crypto, f.tx), f.tx, f.fetched, now).Some? then Land(s, client)
      else s.(flights := s.flights[client := f.(checkedAt := Some(now))])
  }

  function Committed(n: Node, s: System, client: nat, now: int, ids: seq<string>): System
    requires Commits(s, client, ids)
  {
    var f := s.flights[client];
    System(Exec(s.db, Pipeline(f.tx, TxId(n.crypto, f.tx), f.fetched, n.feeCollector, ids, now)),
           s.flights - {client}, s.scans, s.issued + Elems(ids), s.applied + [Applied(f.tx, f.checkedAt.value, ids)])
  }

  function ExpireStep(s: System, h: string, touches: bool): System {
    var gone := s.db.(txKeys := s.db.txKeys - {h});
    s.(db := if touches then Touch(gone, TxKey(h)) else gone)
  }

  function ScanReadStep(s: System, client: nat): System {
    if !(client in s.scans && s.scans[client].Page?) then s
    else s.(scans := s.scans[client := Healing(s.scans[client].owner, s.scans[client].ids - s.db.utxos.Keys)])
  }

  predicate Heals(s: System, client: nat, id: string) {
    client in s.scans && s.scans[client].Healing? && id in s.scans[client].orphans
  }

  /** One command, or one MULTI block, of one client; a reload, snapshot then restore, happens with every call in flight
      given up. A step that is not enabled does nothing. */
  function Step(n: Node, s: System, e: Event): System {
    match e
    case Add(id, u) => AddStep(s, id, u)
    case Watch(client, tx) => WatchStep(n, s, client, tx)
    case CheckReplay(client) => ReplayStep(n, s, client)
    case Read(client) => ReadStep(s, client)
    case Validate(client, now) => ValidateStep(n, s, client, now)
    case Execute(client, now, ids) =>
      if Commits(s, client, ids) then Committed(n, s, client, now, ids)
      else if Ready(s, client) && !Unchanged(s.db, s.flights[client].watched) then Land(s, client)
      else s
    case Expire(h, touches) => ExpireStep(s, h, touches)
    case ScanPage(client, owner, page) =>
      if page <= Bucket(s.db.owners, owner) then s.(scans := s.scans[client := Page(owner, page)]) else s
    case ScanRead(client) => ScanReadStep(s, client)
    case ScanHeal(client, id) =>
      if Heals(s, client, id) then s.(db := Do(s.db, SRem(s.scans[client].owner, id))) else s
    case Reload(db) => if Reloaded(s.db, db) then System(db, map[], map[], s.issued, s.applied) else s
  }

  const EMPTY := System(Db(map[], map[], map[], [], map[]), map[], map[], {}, [])

  function Run(n: Node, es: seq<Event>): System {
    if es == [] then EMPTY else Step(n, Run(n, es[..|es| - 1]), es[|es| - 1])
  }

  // ---------- the invariant ----------

  /** What an unchanged version tells a client: the replay key it did not see is still absent,
      and each input it read is still live and still what it read. */
  ghost predicate FlightOk(n: Node, db: Db, f: Flight) {
    var h := TxId(n.crypto, f.tx);
    && PreCheck(n.crypto, Redis, f.tx).None? && f.watched.Keys == WatchKeys(f.tx, h)
    && (forall k :: k in f.watched ==> f.watched[k] <= Version(db, k))
    && (f.unseen && Version(db, TxKey(h)) == f.watched[TxKey(h)] ==> h !in db.txKeys)
    && ReadOk(db, f)
    && (f.checkedAt.Some? ==> f.fetched != [])
    && (f.checkedAt.Some? ==> IntentError(n.crypto, Redis, h, f.tx, f.fetched, f.checkedAt.value).None?)
  }

  ghost predicate ReadOk(db: Db, f: Flight) {
    f.fetched != [] ==> |f.fetched| == |f.tx.inputs| && forall i :: 0 <= i < |f.fetched| ==> StillRead(db, f, i)
  }

  lemma SameReads(db: Db, f: Flight, g: Flight)
    requires ReadOk(db, f) && g.tx == f.tx && g.watched == f.watched && g.fetched == f.fetched
    ensures ReadOk(db, g)
  {
    forall i | g.fetched != [] && 0 <= i < |g.fetched| ensures StillRead(db, g, i) {
      assert StillRead(db, f, i);
    }
  }

  ghost predicate StillRead(db: Db, f: Flight, i: nat)
    requires i < |f.fetched| == |f.tx.inputs|
  {
    var id := InputIds(f.tx)[i];
    UtxoKey(id) in f.watched && (Version(db, UtxoKey(id)) == f.watched[UtxoKey(id)] ==>
      id in db.utxos && db.utxos[id] == f.fetched[i])
  }

  ghost predicate Dead(s: System, ids: set<string>) {
    forall id :: id in ids ==> id in s.issued && id !in s.db.utxos
  }

  ghost predicate ScanOk(s: System, c: Scan) {
    if c.Page? then c.ids <= s.issued else Dead(s, c.orphans)
  }

  ghost predicate OwnersOk(s: System) {
    && Indexed(s.db) && s.db.utxos.Keys <= s.issued
    && forall o :: Bucket(s.db.owners, o) <= s.issued
  }

  ghost predicate AppliedOk(s: System) {
    && (forall i :: 0 <= i < |s.applied| ==> s.applied[i].tx.inputs != [] && Dead(s, Elems(InputIds(s.applied[i].tx))))
    && (forall i, j :: 0 <= i < j < |s.applied| ==> Disjoint(s.applied[i].tx, s.applied[j].tx))
  }

  ghost predicate Inv(n: Node, s: System) {
    && OwnersOk(s) && AppliedOk(s)
    && (forall t :: t in s.flights ==> FlightOk(n, s.db, s.flights[t]))
    && (forall t :: t in s.scans ==> ScanOk(s, s.scans[t]))
  }

  /** Ids, once dead, stay dead: nothing old comes back to life. */
  ghost predicate Ages(s: System, s': System) {
    && s.issued <= s'.issued
    && forall id :: id in s.issued && id in s'.db.utxos ==> id in s.db.utxos
  }

  lemma DeadStaysDead(s: System, s': System, ids: set<string>)
    requires Ages(s, s') && Dead(s, ids)
    ensures Dead(s', ids)
  {
  }

  lemma FlightLater(n: Node, db: Db, later: Db, f: Flight)
    requires FlightOk(n, db, f) && Tame(db, later)
    ensures FlightOk(n, later, f)
  {
    forall i | f.fetched != [] && 0 <= i < |f.fetched| ensures StillRead(later, f, i) {
      assert StillRead(db, f, i);
    }
  }

  /** The parts of the invariant that only need time to pass forward. */
  lemma OthersKept(n: Node, s: System, s': System)
    requires Inv(n, s) && Ages(s, s') && Tame(s.db, s'.db)
    ensures forall t :: t in s.flights ==> FlightOk(n, s'.db, s.flights[t])
    ensures forall t :: t in s.scans ==> ScanOk(s', s.scans[t])
    ensures s'.applied == s.applied ==> AppliedOk(s')
  {
    forall t | t in s.flights ensures FlightOk(n, s'.db, s.flights[t]) {
      FlightLater(n, s.db, s'.db, s.flights[t]);
    }
    forall t | t in s.scans ensures ScanOk(s', s.scans[t]) {
      if s.scans[t].Healing? {
        DeadStaysDead(s, s', s.scans[t].orphans);
      }
    }
    forall i | 0 <= i < |s.applied| ensures Dead(s', Elems(InputIds(s.applied[i].tx))) {
      DeadStaysDead(s, s', Elems(InputIds(s.applied[i].tx)));
    }
  }

  lemma UnchangedMeansRead(n: Node, s: System, f: Flight)
    requires FlightOk(n, s.db, f) && f.fetched != [] && Unchanged(s.db, f.watched)
    ensures Present(s.db.utxos, f.tx) && Fetched(s.db.utxos, f.tx) == f.fetched
    ensures f.unseen ==> TxId(n.crypto, f.tx) !in s.db.txKeys
  {
    forall i | 0 <= i < |f.fetched| ensures InputIds(f.tx)[i] in s.db.utxos && s.db.utxos[InputIds(f.tx)[i]] == f.fetched[i] {
      assert StillRead(s.db, f, i);
    }
    assert forall id :: id in InputIds(f.tx) ==> exists i :: 0 <= i < |f.fetched| && InputIds(f.tx)[i] == id;
    assert TxKey(TxId(n.crypto, f.tx)) in f.watched;
  }

  /** An EXEC that goes through is admitted in full against the state it commits to. */
  lemma CommitsAreAdmitted(n: Node, s: System, client: nat, ids: seq<string>)
    requires Inv(n, s) && Commits(s, client, ids)
    ensures var f := s.flights[client];
            && TxId(n.crypto, f.tx) !in s.db.txKeys && Admits(n.crypto, Redis, s.db.utxos, f.tx, f.checkedAt.value)
            && Fetched(s.db.utxos, f.tx) == f.fetched
  {
    assert FlightOk(n, s.db, s.flights[client]);
    UnchangedMeansRead(n, s, s.flights[client]);
  }

  /** ... and its effect on the tokens is that of one atomic step. */
  lemma ExecIsAtomic(n: Node, s: System, client: nat, now: int, ids: seq<string>)
    requires Inv(n, s) && Commits(s, client, ids)
    ensures var f := s.flights[client];
            && Admits(n.crypto, Redis, s.db.utxos, f.tx, f.checkedAt.value)
            && Committed(n, s, client, now, ids).db.utxos ==
               After(s.db.utxos, f.tx, n.feeCollector, Fetched(s.db.utxos, f.tx)[0].currency, ids)
  {
    var f := s.flights[client];
    CommitsAreAdmitted(n, s, client, ids);
    PipelineEffect(s.db, f.tx, TxId(n.crypto, f.tx), f.fetched, n.feeCollector, ids, now);
  }

  /** The owner sets after EXEC: spent members leave their owner's set, new tokens join theirs. */
  lemma OwnersAfter(db: Db, db': Db, issued: set<string>, ins: seq<string>, fetched: seq<Utxo>, ids: seq<string>, made: seq<Utxo>)
    requires Indexed(db) && db.utxos.Keys <= issued && (forall o :: Bucket(db.owners, o) <= issued)
    requires |ins| == |fetched| && |ids| == |made| && FreshIds(ids, issued)
    requires db'.utxos.Keys == db.utxos.Keys - Elems(ins) + Elems(ids)
    requires forall id :: id in db'.utxos && id in issued ==> id in db.utxos && db'.utxos[id] == db.utxos[id]
    requires forall i :: 0 <= i < |ids| ==> db'.utxos[ids[i]] == made[i]
    requires forall o :: Bucket(db'.owners, o) == Bucket(db.owners, o) - OwnedAmong(ins, fetched, o) + OwnedAmong(ids, made, o)
    ensures Indexed(db') && forall o :: Bucket(db'.owners, o) <= issued + Elems(ids)
  {
    forall id | id in db'.utxos ensures id in Bucket(db'.owners, db'.utxos[id].owner) {
      if id in ids {
        var i :| 0 <= i < |ids| && ids[i] == id;
        assert id in OwnedAmong(ids, made, made[i].owner);
      } else {
        assert id !in ins;
        assert id !in OwnedAmong(ins, fetched, db.utxos[id].owner);
      }
    }
    forall o, id | id in Bucket(db'.owners, o)
      ensures id in issued + Elems(ids) && (id in db'.utxos ==> db'.utxos[id].owner == o)
    {
      if id in OwnedAmong(ids, made, o) {
        var i :| 0 <= i < |ids| && made[i].owner == o && ids[i] == id;
      } else {
        assert id in Bucket(db.owners, o);
      }
    }
  }

  lemma OwnersAfterExec(n: Node, s: System, client: nat, now: int, ids: seq<string>)
    requires Inv(n, s) && Commits(s, client, ids)
    ensures OwnersOk(Committed(n, s, client, now, ids))
    ensures Ages(s, Committed(n, s, client, now, ids))
    ensures Dead(Committed(n, s, client, now, ids), Elems(InputIds(s.flights[client].tx)))
  {
    var f := s.flights[client];
    var currency := f.fetched[0].currency;
    CommitsAreAdmitted(n, s, client, ids);
    PipelineEffect(s.db, f.tx, TxId(n.crypto, f.tx), f.fetched, n.feeCollector, ids, now);
    AfterAt(s.db.utxos, f.tx, n.feeCollector, currency, ids, s.issued);
    OwnersAfter(s.db, Committed(n, s, client, now, ids).db, s.issued, InputIds(f.tx), f.fetched, ids,
                Made(f.tx, n.feeCollector, currency));
  }

  lemma ExecuteKeepsInv(n: Node, s: System, client: nat, now: int, ids: seq<string>)
    requires Inv(n, s) && Commits(s, client, ids)
    ensures Inv(n, Committed(n, s, client, now, ids))
  {
    var f, s' := s.flights[client], Committed(n, s, client, now, ids);
    CommitsAreAdmitted(n, s, client, ids);
    ExecIsTame(s.db, Pipeline(f.tx, TxId(n.crypto, f.tx), f.fetched, n.feeCollector, ids, now));
    OwnersAfterExec(n, s, client, now, ids);
    OthersKept(n, s, s');
    AppliedGrows(s, s', f.tx);
  }

  lemma AppliedGrows(s: System, s': System, tx: Tx)
    requires AppliedOk(s) && Ages(s, s') && tx.inputs != [] && Present(s.db.utxos, tx) && s.db.utxos.Keys <= s.issued
    requires |s'.applied| == |s.applied| + 1 && s'.applied[..|s.applied|] == s.applied && s'.applied[|s.applied|].tx == tx
    requires Dead(s', Elems(InputIds(tx)))
    ensures AppliedOk(s')
  {
    forall i | 0 <= i < |s'.applied| ensures s'.applied[i].tx.inputs != [] && Dead(s', Elems(InputIds(s'.applied[i].tx))) {
      if i < |s.applied| {
        assert s'.applied[i] == s.applied[i];
        DeadStaysDead(s, s', Elems(InputIds(s.applied[i].tx)));
      }
    }
    forall i, j | 0 <= i < j < |s'.applied| ensures Disjoint(s'.applied[i].tx, s'.applied[j].tx) {
      assert s'.applied[i] == s.applied[i] && Dead(s, Elems(InputIds(s.applied[i].tx)));
      if j < |s.applied| {
        assert s'.applied[j] == s.applied[j];
      } else {
        assert forall id :: id in InputIds(s.applied[i].tx) ==> id in Elems(InputIds(s.applied[i].tx));
      }
    }
  }

  lemma AddKeepsInv(n: Node, s: System, id: string, u: Utxo)
    requires Inv(n, s) && id !in s.issued
    ensures Inv(n, AddStep(s, id, u))
  {
    AddIsTame(s.db, id, u);
    OwnersAfterAdd(s, id, u);
    OthersKept(n, s, AddStep(s, id, u));
  }

  lemma AddIsTame(db: Db, id: string, u: Utxo)
    ensures Tame(db, Do(Do(db, SetUtxo(id, u)), SAdd(u.owner, id)))
  {
    var mid := Do(db, SetUtxo(id, u));
    DoIsTame(db, SetUtxo(id, u));
    DoIsTame(mid, SAdd(u.owner, id));
    TameTransitive(db, mid, Do(mid, SAdd(u.owner, id)));
  }

  lemma OwnersAfterAdd(s: System, id: string, u: Utxo)
    requires OwnersOk(s) && id !in s.issued
    ensures OwnersOk(AddStep(s, id, u)) && Ages(s, AddStep(s, id, u))
  {
    MakeOne(s.db, id, u);
  }

  /** Steps that only move one client's flight. */
  lemma FlightSet(n: Node, s: System, client: nat, f: Flight)
    requires Inv(n, s) && FlightOk(n, s.db, f)
    ensures Inv(n, s.(flights := s.flights[client := f]))
  {
    OthersKept(n, s, s.(flights := s.flights[client := f]));
  }

  lemma LandKeepsInv(n: Node, s: System, client: nat)
    requires Inv(n, s)
    ensures Inv(n, Land(s, client))
  {
    OthersKept(n, s, Land(s, client));
  }

  lemma InvFlight(n: Node, s: System, client: nat)
    requires Inv(n, s) && client in s.flights
    ensures FlightOk(n, s.db, s.flights[client])
  {
  }

  lemma WatchedFlight(n: Node, db: Db, tx: Tx)
    requires PreCheck(n.crypto, Redis, tx).None?
    ensures FlightOk(n, db, Flight(tx, map k | k in WatchKeys(tx, TxId(n.crypto, tx)) :: Version(db, k), false, [], None))
  {
  }

  lemma WatchKeepsInv(n: Node, s: System, client: nat, tx: Tx)
    requires Inv(n, s)
    ensures Inv(n, WatchStep(n, s, client, tx))
  {
    if client !in s.flights && PreCheck(n.crypto, Redis, tx).None? {
      WatchedFlight(n, s.db, tx);
      FlightSet(n, s, client, WatchStep(n, s, client, tx).flights[client]);
    }
  }

  lemma UnseenFlight(n: Node, db: Db, f: Flight)
    requires FlightOk(n, db, f) && TxId(n.crypto, f.tx) !in db.txKeys
    ensures FlightOk(n, db, f.(unseen := true))
  {
    SameReads(db, f, f.(unseen := true));
  }

  lemma ReplayKeepsInv(n: Node, s: System, client: nat)
    requires Inv(n, s)
    ensures Inv(n, ReplayStep(n, s, client))
  {
    if client in s.flights && !s.flights[client].unseen {
      LandKeepsInv(n, s, client);
      InvFlight(n, s, client);
      if TxId(n.crypto, s.flights[client].tx) !in s.db.txKeys {
        UnseenFlight(n, s.db, s.flights[client]);
        FlightSet(n, s, client, s.flights[client].(unseen := true));
      }
    }
  }

  lemma ReadFlight(n: Node, db: Db, f: Flight)
    requires FlightOk(n, db, f) && f.fetched == [] && Present(db.utxos, f.tx)
    ensures FlightOk(n, db, f.(fetched := Fetched(db.utxos, f.tx)))
  {
    var g := f.(fetched := Fetched(db.utxos, f.tx));
    forall i | 0 <= i < |g.fetched| ensures StillRead(db, g, i) {
      assert InputIds(f.tx)[i] in InputIds(f.tx);
    }
  }

  lemma ReadKeepsInv(n: Node, s: System, client: nat)
    requires Inv(n, s)
    ensures Inv(n, ReadStep(s, client))
  {
    if client in s.flights && s.flights[client].unseen && s.flights[client].fetched == [] {
      LandKeepsInv(n, s, client);
      InvFlight(n, s, client);
      if Present(s.db.utxos, s.flights[client].tx) {
        ReadFlight(n, s.db, s.flights[client]);
        FlightSet(n, s, client, s.flights[client].(fetched := Fetched(s.db.utxos, s.flights[client].tx)));
      }
    }
  }

  lemma CheckedFlight(n: Node, db: Db, f: Flight, now: int)
    requires FlightOk(n, db, f) && |f.fetched| == |f.tx.inputs| > 0
    requires IntentError(n.crypto, Redis, TxId(n.crypto, f.tx), f.tx, f.fetched, now).None?
    ensures FlightOk(n, db, f.(checkedAt := Some(now)))
  {
    SameReads(db, f, f.(checkedAt := Some(now)));
  }

  lemma ValidateKeepsInv(n: Node, s: System, client: nat, now: int)
    requires Inv(n, s)
    ensures Inv(n, ValidateStep(n, s, client, now))
  {
    if client in s.flights && |s.flights[client].fetched| == |s.flights[client].tx.inputs| > 0 {
      var f := s.flights[client];
      LandKeepsInv(n, s, client);
      InvFlight(n, s, client);
      if IntentError(n.crypto, Redis, TxId(n.crypto, f.tx), f.tx, f.fetched, now).None? {
        CheckedFlight(n, s.db, f, now);
        FlightSet(n, s, client, f.(checkedAt := Some(now)));
      }
    }
  }

  lemma ScanReadKeepsInv(n: Node, s: System, client: nat)
    requires Inv(n, s)
    ensures Inv(n, ScanReadStep(s, client))
  {
    OthersKept(n, s, ScanReadStep(s, client));
  }

  /** The unguarded SREM removes a dead member only. */
  lemma HealKeepsInv(n: Node, s: System, client: nat, id: string)
    requires Inv(n, s) && Heals(s, client, id)
    ensures id !in s.db.utxos
    ensures Inv(n, s.(db := Do(s.db, SRem(s.scans[client].owner, id))))
  {
    var owner := s.scans[client].owner;
    var s' := s.(db := Do(s.db, SRem(owner, id)));
    assert ScanOk(s, s.scans[client]);
    BucketSet(s.db.owners, owner, Bucket(s.db.owners, owner) - {id});
    OthersKept(n, s, s');
  }

  lemma ExpireKeepsInv(n: Node, s: System, h: string, touches: bool)
    requires Inv(n, s)
    ensures Inv(n, ExpireStep(s, h, touches))
  {
    var s' := ExpireStep(s, h, touches);
    forall t | t in s'.flights ensures FlightOk(n, s'.db, s'.flights[t]) {
      var f := s.flights[t];
      assert FlightOk(n, s.db, f);
      forall i | f.fetched != [] && 0 <= i < |f.fetched| ensures StillRead(s'.db, f, i) {
        assert StillRead(s.db, f, i);
      }
    }
    forall t | t in s'.scans ensures ScanOk(s', s'.scans[t]) {
      assert ScanOk(s, s.scans[t]);
    }
    forall i | 0 <= i < |s'.applied| ensures Dead(s', Elems(InputIds(s'.applied[i].tx))) {
      assert Dead(s, Elems(InputIds(s.applied[i].tx)));
    }
  }

  lemma PageKeepsInv(n: Node, s: System, client: nat, owner: string, page: set<string>)
    requires Inv(n, s) && page <= Bucket(s.db.owners, owner)
    ensures Inv(n, s.(scans := s.scans[client := Page(owner, page)]))
  {
    OthersKept(n, s, s.(scans := s.scans[client := Page(owner, page)]));
  }

  lemma ReloadKeepsInv(n: Node, s: System, db: Db)
    requires Inv(n, s) && Reloaded(s.db, db)
    ensures Inv(n, System(db, map[], map[], s.issued, s.applied))
  {
    ReloadedIndex(s.db, db);
    var s' := System(db, map[], map[], s.issued, s.applied);
    forall i | 0 <= i < |s.applied| ensures Dead(s', Elems(InputIds(s.applied[i].tx))) {
      DeadStaysDead(s, s', Elems(InputIds(s.applied[i].tx)));
    }
  }

  lemma StepKeepsInv(n: Node, s: System, e: Event)
    requires Inv(n, s)
    ensures Inv(n, Step(n, s, e))
  {
    match e
    case Add(id, u) => if id !in s.issued { AddKeepsInv(n, s, id, u); }
    case Watch(client, tx) => WatchKeepsInv(n, s, client, tx);
    case CheckReplay(client) => ReplayKeepsInv(n, s, client);
    case Read(client) => ReadKeepsInv(n, s, client);
    case Validate(client, now) => ValidateKeepsInv(n, s, client, now);
    case Execute(client, now, ids) =>
      LandKeepsInv(n, s, client);
      if Commits(s, client, ids) { ExecuteKeepsInv(n, s, client, now, ids); }
    case Expire(h, touches) => ExpireKeepsInv(n, s, h, touches);
    case ScanPage(client, owner, page) =>
      if page <= Bucket(s.db.owners, owner) { PageKeepsInv(n, s, client, owner, page); }
    case ScanRead(client) => ScanReadKeepsInv(n, s, client);
    case ScanHeal(client, id) => if Heals(s, client, id) { HealKeepsInv(n, s, client, id); }
    case Reload(db) => if Reloaded(s.db, db) { ReloadKeepsInv(n, s, db); }
  }

  /** Every interleaving keeps the invariant: live tokens stay in their owner's set, sets never list another's. */
  lemma {:induction false} RunKeepsInv(n: Node, es: seq<Event>)
    ensures Inv(n, Run(n, es))
  {
    if es != [] {
      RunKeepsInv(n, es[..|es| - 1]);
      StepKeepsInv(n, Run(n, es[..|es| - 1]), es[|es| - 1]);
    }
  }

  // ---------- consequences ----------

  /** In every reached state, an EXEC that goes through does what full validation and application at that moment would. */
  lemma {:induction false} ExecutionIsAtomic(n: Node, es: seq<Event>, client: nat, now: int, ids: seq<string>)
    ensures var s := Run(n, es);
            Commits(s, client, ids) ==>
              var f := s.flights[client];
              && Admits(n.crypto, Redis, s.db.utxos, f.tx, f.checkedAt.value)
              && Committed(n, s, client, now, ids).db.utxos ==
                 After(s.db.utxos, f.tx, n.feeCollector, Fetched(s.db.utxos, f.tx)[0].currency, ids)
  {
    if Commits(Run(n, es), client, ids) {
      RunKeepsInv(n, es);
      ExecIsAtomic(n, Run(n, es), client, now, ids);
    }
  }

  lemma HealKeepsLive(n: Node, s: System, client: nat, id: string)
    requires Inv(n, s)
    ensures var s' := Step(n, s, ScanHeal(client, id));
            s'.db.utxos == s.db.utxos && forall t :: t in s.db.utxos ==> t in Bucket(s'.db.owners, s.db.utxos[t].owner)
  {
    if Heals(s, client, id) {
      HealKeepsInv(n, s, client, id);
    }
  }

  /** A healing scan never removes a live token from its owner's set, whatever ran between its reads and its SREM. */
  lemma {:induction false} HealingDropsNoLiveToken(n: Node, es: seq<Event>, client: nat, id: string)
    ensures var s := Run(n, es); var s' := Step(n, s, ScanHeal(client, id));
            s'.db.utxos == s.db.utxos && forall t :: t in s.db.utxos ==> t in Bucket(s'.db.owners, s.db.utxos[t].owner)
  {
    RunKeepsInv(n, es);
    HealKeepsLive(n, Run(n, es), client, id);
  }

  /** No token is consumed twice, and no transaction is applied twice, whatever replay keys have expired. */
  lemma {:induction false} ConsumedOnce(n: Node, es: seq<Event>, i: nat, j: nat)
    requires i < j < |Run(n, es).applied|
    ensures var a := Run(n, es).applied; Disjoint(a[i].tx, a[j].tx) && a[i].tx != a[j].tx
  {
    RunKeepsInv(n, es);
    var a := Run(n, es).applied;
    assert InputIds(a[i].tx)[0] in InputIds(a[i].tx);
  }

  /** Nothing that shares an input with an applied transaction is ever admitted again, though replay keys
      expire and reloads erase them all. */
  lemma {:induction false} NeverAgain(n: Node, es: seq<Event>, i: nat, tx: Tx, now: int)
    requires i < |Run(n, es).applied| && !Disjoint(Run(n, es).applied[i].tx, tx)
    ensures !Admits(n.crypto, Redis, Run(n, es).db.utxos, tx, now)
  {
    RunKeepsInv(n, es);
    var s := Run(n, es);
    var id :| id in InputIds(s.applied[i].tx) && id in InputIds(tx);
    assert id in Elems(InputIds(s.applied[i].tx));
  }

  /** Reloading a reached state keeps every token, drops only orphans from the owner sets, and changes no balance. */
  lemma {:induction false} ReloadOfRun(n: Node, es: seq<Event>, db: Db, owner: string, currency: string, now: int)
    requires Reloaded(Run(n, es).db, db)
    ensures var s := Run(n, es);
            && db.utxos == s.db.utxos && Indexed(db)
            && Bucket(db.owners, owner) == Bucket(s.db.owners, owner) * s.db.utxos.Keys
            && SetSum(Bucket(db.owners, owner), BalanceWeight(db.utxos, owner, currency, now)) ==
               SetSum(Bucket(s.db.owners, owner), BalanceWeight(s.db.utxos, owner, currency, now))
  {
    RunKeepsInv(n, es);
    ReloadedIndex(Run(n, es).db, db);
    ReloadKeepsBalances(Run(n, es).db, db, owner, currency, now);
  }

  // ---------- the audit stream ----------

  function Entries(c: Crypto, applied: seq<Applied>): seq<LogEntry> {
    seq(|applied|, i requires 0 <= i < |applied| => Entry(applied[i].tx, TxId(c, applied[i].tx)))
  }

  lemma StepStreams(n: Node, s: System, e: Event)
    requires !(e.Execute? && Commits(s, e.client, e.ids))
    ensures Step(n, s, e).db.stream == s.db.stream && Step(n, s, e).applied == s.applied
  {
  }

  lemma CommitStreams(n: Node, s: System, client: nat, now: int, ids: seq<string>)
    requires Commits(s, client, ids)
    ensures var f, s' := s.flights[client], Committed(n, s, client, now, ids);
            && s'.db.stream == s.db.stream + [Entry(f.tx, TxId(n.crypto, f.tx))]
            && s'.applied == s.applied + [Applied(f.tx, f.checkedAt.value, ids)]
  {
    var f := s.flights[client];
    PipelineEffect(s.db, f.tx, TxId(n.crypto, f.tx), f.fetched, n.feeCollector, ids, now);
  }

  lemma {:induction false} StreamIsEntries(n: Node, es: seq<Event>)
    ensures Run(n, es).db.stream == Entries(n.crypto, Run(n, es).applied)
  {
    if es != [] {
      var front, e := es[..|es| - 1], es[|es| - 1];
      var s := Run(n, front);
      StreamIsEntries(n, front);
      if e.Execute? && Commits(s, e.client, e.ids) {
        CommitStreams(n, s, e.client, e.now, e.ids);
      } else {
        StepStreams(n, s, e);
      }
    }
  }

  /** After every run the audit stream lists exactly the applied transactions, in the order they were applied: digest,
      input ids, outputs and fee. */
  lemma {:induction false} StreamIsApplied(n: Node, es: seq<Event>)
    ensures var s := Run(n, es);
            && |s.db.stream| == |s.applied|
            && forall i :: 0 <= i < |s.applied| ==> Logs(s.db.stream[i], s.applied[i].tx, TxId(n.crypto, s.applied[i].tx))
  {
    StreamIsEntries(n, es);
  }

  // ---------- serial equivalence ----------

  /** What changed the tokens, in order: additions, and committed transactions. */
  datatype Change = Added(id: string, u: Utxo) | Done(a: Applied)

  /** The change a step makes, if any. */
  function NewChange(s: System, e: Event): Option<Change> {
    if e.Add? && e.id !in s.issued then Some(Added(e.id, e.u))
    else if e.Execute? && Commits(s, e.client, e.ids)
    then Some(Done(Applied(s.flights[e.client].tx, s.flights[e.client].checkedAt.value, e.ids)))
    else None
  }

  function Changes(n: Node, es: seq<Event>): seq<Change> {
    if es == [] then [] else
      var c := NewChange(Run(n, es[..|es| - 1]), es[|es| - 1]);
      Changes(n, es[..|es| - 1]) + if c.Some? then [c.value] else []
  }

  /** The tokens after one more change; a transaction must be admitted in full at its turn. */
  function Make(n: Node, t: Tokens, c: Change): Option<Tokens> {
    match c
    case Added(id, u) => Some(t[id := u])
    case Done(a) =>
      if Admits(n.crypto, Redis, t, a.tx, a.now) && |a.ids| == IdsNeeded(a.tx)
      then Some(After(t, a.tx, n.feeCollector, Fetched(t, a.tx)[0].currency, a.ids))
      else None
  }

  function Serial(n: Node, changes: seq<Change>): Option<Tokens> {
    if changes == [] then Some(map[]) else
      var front := Serial(n, changes[..|changes| - 1]);
      if front.None? then None else Make(n, front.value, changes[|changes| - 1])
  }

  lemma SerialSnoc(n: Node, changes: seq<Change>, c: Change)
    requires Serial(n, changes).Some?
    ensures Serial(n, changes + [c]) == Make(n, Serial(n, changes).value, c)
  {
    assert (changes + [c])[..|changes|] == changes;
  }

  lemma OtherStepsKeepTokens(n: Node, s: System, e: Event)
    requires !e.Add? && !e.Execute?
    ensures Step(n, s, e).db.utxos == s.db.utxos
  {
  }

  lemma CommitMakesChange(n: Node, s: System, client: nat, now: int, ids: seq<string>)
    requires Inv(n, s) && Commits(s, client, ids)
    ensures var f := s.flights[client];
            Make(n, s.db.utxos, Done(Applied(f.tx, f.checkedAt.value, ids))) == Some(Committed(n, s, client, now, ids).db.utxos)
  {
    ExecIsAtomic(n, s, client, now, ids);
  }

  lemma StepMakesChange(n: Node, es: seq<Event>, e: Event)
    ensures var s := Run(n, es);
            var c := NewChange(s, e);
            if c.Some? then Make(n, s.db.utxos, c.value) == Some(Step(n, s, e).db.utxos)
            else Step(n, s, e).db.utxos == s.db.utxos
  {
    var s := Run(n, es);
    if e.Execute? {
      if Commits(s, e.client, e.ids) {
        RunKeepsInv(n, es);
        CommitMakesChange(n, s, e.client, e.now, e.ids);
      }
    } else if !e.Add? {
      OtherStepsKeepTokens(n, s, e);
    }
  }

  /** Optimistic interleaving is serial: the live tokens are those of the changes made one at a time, none refused. */
  lemma {:induction false} Linearizable(n: Node, es: seq<Event>)
    ensures Serial(n, Changes(n, es)) == Some(Run(n, es).db.utxos)
  {
    if es != [] {
      var front, e := es[..|es| - 1], es[|es| - 1];
      Linearizable(n, front);
      StepMakesChange(n, front, e);
      var c := NewChange(Run(n, front), e);
      assert Changes(n, front) + [] == Changes(n, front);
      if c.Some? {
        SerialSnoc(n, Changes(n, front), c.value);
      }
    }
  }

  // ---------- conservation ----------

  /** What add_utxo has brought in of a currency. */
  function AddedValue(changes: seq<Change>, currency: string): nat {
    if changes == [] then 0 else
      var c := changes[|changes| - 1];
      AddedValue(changes[..|changes| - 1], currency) + if c.Added? && c.u.currency == currency then c.u.amount else 0
  }

  lemma AddedSnoc(changes: seq<Change>, c: Change, currency: string)
    ensures AddedValue(changes + [c], currency) ==
            AddedValue(changes, currency) + if c.Added? && c.u.currency == currency then c.u.amount else 0
  {
    assert (changes + [c])[..|changes|] == changes;
  }

  lemma ValueOfAdd(t: Tokens, id: string, u: Utxo, currency: string)
    requires id !in t
    ensures Value(t[id := u], currency) == Value(t, currency) + if u.currency == currency then u.amount else 0
  {
    var made := ListAmounts([u], currency);
    assert [id][..0] == [] && [u][..0] == [] && made[..0] == [] && made[0] == (if u.currency == currency then u.amount else 0);
    assert Put(t, [id], [u]) == t[id := u];
    ValueOfPut(t, [id], [u], currency);
    assert Sum(made) == Sum(made[..0]) + made[0];
  }

  lemma CommitConserves(n: Node, s: System, client: nat, now: int, ids: seq<string>, currency: string)
    requires Inv(n, s) && Commits(s, client, ids) && Value(s.db.utxos, currency) < LIMIT
    ensures Value(Committed(n, s, client, now, ids).db.utxos, currency) == Value(s.db.utxos, currency)
  {
    var f := s.flights[client];
    ExecIsAtomic(n, s, client, now, ids);
    AdmittedConserves(n.crypto, Redis, s.db.utxos, f.tx, f.checkedAt.value, n.feeCollector, ids, s.issued, currency);
  }

  function Brought(c: Option<Change>, currency: string): nat {
    if c.Some? && c.value.Added? && c.value.u.currency == currency then c.value.u.amount else 0
  }

  lemma ChangesSnoc(n: Node, es: seq<Event>, e: Event)
    ensures var c := NewChange(Run(n, es), e);
            Changes(n, es + [e]) == Changes(n, es) + if c.Some? then [c.value] else []
  {
    assert (es + [e])[..|es|] == es;
  }

  lemma AddedMore(n: Node, es: seq<Event>, e: Event, currency: string)
    ensures AddedValue(Changes(n, es + [e]), currency) ==
            AddedValue(Changes(n, es), currency) + Brought(NewChange(Run(n, es), e), currency)
  {
    ChangesSnoc(n, es, e);
    var c := NewChange(Run(n, es), e);
    if c.Some? {
      AddedSnoc(Changes(n, es), c.value, currency);
    } else {
      assert Changes(n, es) + [] == Changes(n, es);
    }
  }

  lemma FreshAdd(n: Node, es: seq<Event>, id: string)
    requires id !in Run(n, es).issued
    ensures id !in Run(n, es).db.utxos
  {
    RunKeepsInv(n, es);
  }

  lemma AddMakes(n: Node, s: System, id: string, u: Utxo)
    ensures Step(n, s, Add(id, u)).db.utxos == if id in s.issued then s.db.utxos else s.db.utxos[id := u]
  {
  }

  lemma AddConserves(n: Node, s: System, id: string, u: Utxo, currency: string)
    requires id !in s.issued ==> id !in s.db.utxos
    ensures Value(Step(n, s, Add(id, u)).db.utxos, currency) ==
            Value(s.db.utxos, currency) + Brought(NewChange(s, Add(id, u)), currency)
  {
    AddMakes(n, s, id, u);
    if id !in s.issued {
      ValueOfAdd(s.db.utxos, id, u, currency);
    }
  }

  lemma ExecuteConserves(n: Node, front: seq<Event>, e: Event, currency: string)
    requires e.Execute? && Commits(Run(n, front), e.client, e.ids) && Value(Run(n, front).db.utxos, currency) < LIMIT
    ensures Value(Committed(n, Run(n, front), e.client, e.now, e.ids).db.utxos, currency) == Value(Run(n, front).db.utxos, currency)
  {
    RunKeepsInv(n, front);
    CommitConserves(n, Run(n, front), e.client, e.now, e.ids, currency);
  }

  lemma StepConserves(n: Node, front: seq<Event>, e: Event, currency: string)
    requires Value(Run(n, front).db.utxos, currency) < LIMIT
    ensures var s := Run(n, front);
            Value(Step(n, s, e).db.utxos, currency) == Value(s.db.utxos, currency) + Brought(NewChange(s, e), currency)
  {
    if e.Add? {
      if e.id !in Run(n, front).issued {
        FreshAdd(n, front, e.id);
      }
      AddConserves(n, Run(n, front), e.id, e.u, currency);
    } else if !e.Execute? {
      OtherStepsKeepTokens(n, Run(n, front), e);
    } else if Commits(Run(n, front), e.client, e.ids) {
      ExecuteConserves(n, front, e, currency);
    }
  }

  /** The live total of a currency is what was added, while that stays below 10^28 cents; no interleaving
      of transactions creates or destroys value. */
  lemma {:induction false} RunConserves(n: Node, es: seq<Event>, currency: string)
    requires AddedValue(Changes(n, es), currency) < LIMIT
    ensures Value(Run(n, es).db.utxos, currency) == AddedValue(Changes(n, es), currency)
  {
    if es != [] {
      var front, e := es[..|es| - 1], es[|es| - 1];
      assert es == front + [e];
      AddedMore(n, front, e, currency);
      RunConserves(n, front, currency);
      StepConserves(n, front, e, currency);
    }
  }

  // ---------- who is paid ----------

  /** An EXEC that goes through: it applies the transaction the client watched, which pays as it says and is recorded. */
  ghost predicate ExecutesAndPays(n: Node, s: System, s': System, e: Event) {
    && e.Execute? && e.client in s.flights && s.flights[e.client].checkedAt.Some?
    && var f := s.flights[e.client];
       && s'.applied == s.applied + [Applied(f.tx, f.checkedAt.value, e.ids)]
       && PaysOut(s.db.utxos, s'.db.utxos, f.tx, n.feeCollector)
       && Issues(s.db.utxos, s'.db.utxos, f.tx, n.feeCollector, e.ids)
       && Records(s.db, s'.db, f.tx, TxId(n.crypto, f.tx), e.now)
  }

  lemma CommitPays(n: Node, s: System, client: nat, now: int, ids: seq<string>)
    requires Inv(n, s) && Commits(s, client, ids)
    ensures ExecutesAndPays(n, s, Committed(n, s, client, now, ids), Execute(client, now, ids))
  {
    var f := s.flights[client];
    CommitsAreAdmitted(n, s, client, ids);
    PipelinePays(n.crypto, s.db, f.tx, f.checkedAt.value, n.feeCollector, ids, now);
  }

  /** What add_utxo leaves. */
  predicate Adds(t: Tokens, t': Tokens, e: Event) {
    e.Add? && e.id !in t && t' == t[e.id := e.u]
  }

  /** Whatever the interleaving, a step leaves all tokens alone, or adds one, or applies one transaction that pays as it says. */
  lemma {:induction false} EveryStepPays(n: Node, es: seq<Event>, e: Event)
    ensures var s, s' := Run(n, es), Run(n, es + [e]);
            if s'.applied == s.applied then s'.db.utxos == s.db.utxos || Adds(s.db.utxos, s'.db.utxos, e)
            else ExecutesAndPays(n, s, s', e)
  {
    var s := Run(n, es);
    assert (es + [e])[..|es|] == es;
    RunKeepsInv(n, es);
    if e.Execute? && Commits(s, e.client, e.ids) {
      CommitPays(n, s, e.client, e.now, e.ids);
    } else {
      StepStreams(n, s, e);
      StepMakesChange(n, es, e);
      if e.Add? && e.id !in s.issued {
        FreshAdd(n, es, e.id);
      }
    }
  }

  /** What additions and applied transactions moved for an owner, each counted among the tokens of its moment. */
  function Moved(n: Node, es: seq<Event>, owner: string, currency: string, at: int): int {
    if es == [] then 0 else
      var front, e := es[..|es| - 1], es[|es| - 1];
      var s, s' := Run(n, front), Run(n, es);
      Moved(n, front, owner, currency, at) +
      if |s'.applied| > |s.applied| then Moves(s.db.utxos, s'.applied[|s.applied|].tx, n.feeCollector, owner, currency, at)
      else if e.Add? && e.id !in s.db.utxos then Worth(s'.db.utxos, e.id, owner, currency, at)
      else 0
  }

  lemma StepBalance(n: Node, front: seq<Event>, e: Event, owner: string, currency: string, at: int)
    ensures var t, t' := Run(n, front).db.utxos, Run(n, front + [e]).db.utxos;
            Balance(t', owner, currency, at) - Balance(t, owner, currency, at) ==
            Moved(n, front + [e], owner, currency, at) - Moved(n, front, owner, currency, at)
  {
    var s, s' := Run(n, front), Run(n, front + [e]);
    assert (front + [e])[..|front|] == front;
    EveryStepPays(n, front, e);
    if s'.applied == s.applied && e.Add? && e.id !in s.db.utxos {
      if s'.db.utxos != s.db.utxos {
        BalanceOfAdded(s.db.utxos, e.id, e.u, owner, currency, at);
      }
    }
  }

  /** After every run each balance is what additions and applied transactions moved. */
  lemma {:induction false} RunBalance(n: Node, es: seq<Event>, owner: string, currency: string, at: int)
    ensures Balance(Run(n, es).db.utxos, owner, currency, at) == Moved(n, es, owner, currency, at)
  {
    if es == [] {
      BalanceOfNothing(owner, currency, at);
    } else {
      var front, e := es[..|es| - 1], es[|es| - 1];
      assert es == front + [e];
      RunBalance(n, front, owner, currency, at);
      StepBalance(n, front, e, owner, currency, at);
    }
  }

  // ---------- the bound is sharp ----------

  function Preparing(tx: Tx, now: int): seq<Event> {
    [Watch(0, tx), CheckReplay(0), Read(0), Validate(0, now)]
  }

  /** One client's attempt with nobody in between. */
  function Attempt(tx: Tx, now: int, ids: seq<string>): seq<Event> {
    Preparing(tx, now) + [Execute(0, now, ids)]
  }

  function Flying(s: System, f: Flight): System {
    s.(flights := s.flights[0 := f])
  }

  function Watched(n: Node, s: System, tx: Tx): Flight {
    Flight(tx, map k | k in WatchKeys(tx, TxId(n.crypto, tx)) :: Version(s.db, k), false, [], None)
  }

  function Prepared(n: Node, s: System, tx: Tx, now: int): Flight
    requires Present(s.db.utxos, tx)
  {
    Watched(n, s, tx).(unseen := true, fetched := Fetched(s.db.utxos, tx), checkedAt := Some(now))
  }

  predicate Clear(n: Node, s: System, tx: Tx, now: int) {
    0 !in s.flights && Admits(n.crypto, Redis, s.db.utxos, tx, now) && TxId(n.crypto, tx) !in s.db.txKeys
  }

  lemma RunTo(n: Node, es: seq<Event>, e: Event, s: System)
    requires Step(n, Run(n, es), e) == s
    ensures Run(n, es + [e]) == s
  {
    assert (es + [e])[..|es|] == es;
  }

  lemma AttemptWatches(n: Node, es: seq<Event>, tx: Tx, now: int)
    requires Clear(n, Run(n, es), tx, now)
    ensures Run(n, es + [Watch(0, tx)]) == Flying(Run(n, es), Watched(n, Run(n, es), tx))
  {
    RunTo(n, es, Watch(0, tx), Flying(Run(n, es), Watched(n, Run(n, es), tx)));
  }

  lemma AttemptChecks(n: Node, es: seq<Event>, s: System, tx: Tx, now: int)
    requires Clear(n, s, tx, now) && Run(n, es) == Flying(s, Watched(n, s, tx))
    ensures Run(n, es + [CheckReplay(0)]) == Flying(s, Watched(n, s, tx).(unseen := true))
  {
    RunTo(n, es, CheckReplay(0), Flying(s, Watched(n, s, tx).(unseen := true)));
  }

  lemma AttemptReads(n: Node, es: seq<Event>, s: System, tx: Tx, now: int)
    requires Clear(n, s, tx, now) && Run(n, es) == Flying(s, Watched(n, s, tx).(unseen := true))
    ensures Run(n, es + [Read(0)]) == Flying(s, Watched(n, s, tx).(unseen := true, fetched := Fetched(s.db.utxos, tx)))
  {
    RunTo(n, es, Read(0), Flying(s, Watched(n, s, tx).(unseen := true, fetched := Fetched(s.db.utxos, tx))));
  }

  lemma AttemptValidates(n: Node, es: seq<Event>, s: System, tx: Tx, now: int)
    requires Clear(n, s, tx, now)
    requires Run(n, es) == Flying(s, Watched(n, s, tx).(unseen := true, fetched := Fetched(s.db.utxos, tx)))
    ensures Run(n, es + [Validate(0, now)]) == Flying(s, Prepared(n, s, tx, now))
  {
    RunTo(n, es, Validate(0, now), Flying(s, Prepared(n, s, tx, now)));
  }

  lemma AttemptSeen(n: Node, es: seq<Event>, tx: Tx, now: int)
    requires Clear(n, Run(n, es), tx, now)
    ensures Run(n, es + [Watch(0, tx)] + [CheckReplay(0)]) == Flying(Run(n, es), Watched(n, Run(n, es), tx).(unseen := true))
  {
    AttemptWatches(n, es, tx, now);
    AttemptChecks(n, es + [Watch(0, tx)], Run(n, es), tx, now);
  }

  lemma AttemptFinishes(n: Node, es: seq<Event>, s: System, tx: Tx, now: int)
    requires Clear(n, s, tx, now) && Run(n, es) == Flying(s, Watched(n, s, tx).(unseen := true))
    ensures Run(n, es + [Read(0)] + [Validate(0, now)]) == Flying(s, Prepared(n, s, tx, now))
  {
    AttemptReads(n, es, s, tx, now);
    AttemptValidates(n, es + [Read(0)], s, tx, now);
  }

  lemma AttemptPrepares(n: Node, es: seq<Event>, tx: Tx, now: int)
    requires Clear(n, Run(n, es), tx, now)
    ensures Run(n, es + Preparing(tx, now)) == Flying(Run(n, es), Prepared(n, Run(n, es), tx, now))
  {
    var two := es + [Watch(0, tx)] + [CheckReplay(0)];
    assert two + [Read(0)] + [Validate(0, now)] == es + Preparing(tx, now);
    AttemptSeen(n, es, tx, now);
    AttemptFinishes(n, two, Run(n, es), tx, now);
  }

  lemma AttemptCommits(n: Node, s: System, tx: Tx, now: int, ids: seq<string>)
    requires Clear(n, s, tx, now) && |ids| == IdsNeeded(tx) && FreshIds(ids, s.issued)
    ensures Commits(Flying(s, Prepared(n, s, tx, now)), 0, ids)
  {
  }

  lemma ExecuteCommits(n: Node, s: System, now: int, ids: seq<string>)
    requires Commits(s, 0, ids)
    ensures Step(n, s, Execute(0, now, ids)) == Committed(n, s, 0, now, ids)
  {
  }

  lemma PreparedInv(n: Node, es: seq<Event>, tx: Tx, now: int)
    requires Clear(n, Run(n, es), tx, now)
    ensures Inv(n, Flying(Run(n, es), Prepared(n, Run(n, es), tx, now)))
  {
    AttemptPrepares(n, es, tx, now);
    RunKeepsInv(n, es + Preparing(tx, now));
  }

  lemma AttemptEnds(n: Node, es: seq<Event>, tx: Tx, now: int, ids: seq<string>, ready: System)
    requires Run(n, es + Preparing(tx, now)) == ready && Commits(ready, 0, ids)
    ensures Run(n, es + Attempt(tx, now, ids)) == Committed(n, ready, 0, now, ids)
  {
    ExecuteCommits(n, ready, now, ids);
    RunTo(n, es + Preparing(tx, now), Execute(0, now, ids), Committed(n, ready, 0, now, ids));
    assert es + Preparing(tx, now) + [Execute(0, now, ids)] == es + Attempt(tx, now, ids);
  }

  /** An attempt nobody disturbs applies what is admitted, and it pays as it says. */
  lemma UndisturbedApplies(n: Node, es: seq<Event>, tx: Tx, now: int, ids: seq<string>)
    requires Clear(n, Run(n, es), tx, now) && |ids| == IdsNeeded(tx) && FreshIds(ids, Run(n, es).issued)
    ensures var t := Run(n, es).db.utxos;
            Run(n, es + Attempt(tx, now, ids)).db.utxos == After(t, tx, n.feeCollector, Fetched(t, tx)[0].currency, ids)
    ensures PaysOut(Run(n, es).db.utxos, Run(n, es + Attempt(tx, now, ids)).db.utxos, tx, n.feeCollector)
    ensures Issues(Run(n, es).db.utxos, Run(n, es + Attempt(tx, now, ids)).db.utxos, tx, n.feeCollector, ids)
  {
    RunKeepsInv(n, es);
    AdmittedPays(n.crypto, Redis, Run(n, es).db.utxos, tx, now, n.feeCollector, ids);
    var ready := Flying(Run(n, es), Prepared(n, Run(n, es), tx, now));
    AttemptPrepares(n, es, tx, now);
    AttemptCommits(n, Run(n, es), tx, now, ids);
    AttemptEnds(n, es, tx, now, ids, ready);
    PreparedInv(n, es, tx, now);
    ExecIsAtomic(n, ready, 0, now, ids);
  }

  lemma NotFlying(n: Node, s: System, now: int, ids: seq<string>)
    requires 0 !in s.flights
    ensures Step(n, s, CheckReplay(0)) == s && Step(n, s, Read(0)) == s && Step(n, s, Validate(0, now)) == s
    ensures Step(n, s, Execute(0, now, ids)) == s
  {
  }

  lemma Landed(s: System, f: Flight)
    requires 0 !in s.flights
    ensures Land(Flying(s, f), 0) == s
  {
    assert s.flights[0 := f] - {0} == s.flights;
  }

  function FourSteps(n: Node, s: System, now: int, ids: seq<string>): System {
    Step(n, Step(n, Step(n, Step(n, s, CheckReplay(0)), Read(0)), Validate(0, now)), Execute(0, now, ids))
  }

  lemma RefusedAtReplay(n: Node, s: System, tx: Tx, now: int, ids: seq<string>)
    requires 0 !in s.flights && TxId(n.crypto, tx) in s.db.txKeys
    ensures FourSteps(n, Flying(s, Watched(n, s, tx)), now, ids) == s
  {
    Landed(s, Watched(n, s, tx));
    NotFlying(n, s, now, ids);
  }

  lemma SeenUnseen(n: Node, s: System, tx: Tx)
    requires 0 !in s.flights && TxId(n.crypto, tx) !in s.db.txKeys
    ensures Step(n, Flying(s, Watched(n, s, tx)), CheckReplay(0)) == Flying(s, Watched(n, s, tx).(unseen := true))
  {
  }

  lemma RefusedAtRead(n: Node, s: System, tx: Tx, now: int, ids: seq<string>)
    requires 0 !in s.flights && TxId(n.crypto, tx) !in s.db.txKeys && !Present(s.db.utxos, tx)
    ensures FourSteps(n, Flying(s, Watched(n, s, tx)), now, ids) == s
  {
    SeenUnseen(n, s, tx);
    Landed(s, Watched(n, s, tx).(unseen := true));
    NotFlying(n, s, now, ids);
  }

  lemma ReadFetches(n: Node, s: System, tx: Tx)
    requires 0 !in s.flights && Present(s.db.utxos, tx)
    ensures Step(n, Flying(s, Watched(n, s, tx).(unseen := true)), Read(0)) ==
            Flying(s, Watched(n, s, tx).(unseen := true, fetched := Fetched(s.db.utxos, tx)))
  {
  }

  lemma ValidateLands(n: Node, s: System, tx: Tx, now: int)
    requires 0 !in s.flights && Present(s.db.utxos, tx) && tx.inputs != []
    requires IntentError(n.crypto, Redis, TxId(n.crypto, tx), tx, Fetched(s.db.utxos, tx), now).Some?
    ensures Step(n, Flying(s, Watched(n, s, tx).(unseen := true, fetched := Fetched(s.db.utxos, tx))), Validate(0, now)) == s
  {
    Landed(s, Watched(n, s, tx).(unseen := true, fetched := Fetched(s.db.utxos, tx)));
  }

  lemma RefusedAtValidate(n: Node, s: System, tx: Tx, now: int, ids: seq<string>)
    requires 0 !in s.flights && TxId(n.crypto, tx) !in s.db.txKeys && Present(s.db.utxos, tx) && tx.inputs != []
    requires IntentError(n.crypto, Redis, TxId(n.crypto, tx), tx, Fetched(s.db.utxos, tx), now).Some?
    ensures FourSteps(n, Flying(s, Watched(n, s, tx)), now, ids) == s
  {
    SeenUnseen(n, s, tx);
    ReadFetches(n, s, tx);
    ValidateLands(n, s, tx, now);
    NotFlying(n, s, now, ids);
  }

  lemma RefusedLands(n: Node, s: System, tx: Tx, now: int, ids: seq<string>)
    requires 0 !in s.flights && !Clear(n, s, tx, now)
    ensures FourSteps(n, Step(n, s, Watch(0, tx)), now, ids) == s
  {
    if PreCheck(n.crypto, Redis, tx).Some? {
      NotFlying(n, s, now, ids);
    } else {
      assert Step(n, s, Watch(0, tx)) == Flying(s, Watched(n, s, tx));
      if TxId(n.crypto, tx) in s.db.txKeys {
        RefusedAtReplay(n, s, tx, now, ids);
      } else if !Present(s.db.utxos, tx) {
        RefusedAtRead(n, s, tx, now, ids);
      } else {
        RefusedAtValidate(n, s, tx, now, ids);
      }
    }
  }

  lemma RunTwo(n: Node, es: seq<Event>, e: Event, f: Event)
    ensures Run(n, es + [e, f]) == Step(n, Step(n, Run(n, es), e), f)
  {
    assert (es + [e, f])[..|es| + 1] == es + [e] && (es + [e])[..|es|] == es;
  }

  lemma RunFour(n: Node, es: seq<Event>, now: int, ids: seq<string>)
    ensures Run(n, es + [CheckReplay(0), Read(0)] + [Validate(0, now), Execute(0, now, ids)]) == FourSteps(n, Run(n, es), now, ids)
  {
    RunTwo(n, es, CheckReplay(0), Read(0));
    RunTwo(n, es + [CheckReplay(0), Read(0)], Validate(0, now), Execute(0, now, ids));
  }

  /** An attempt nobody disturbs leaves no trace if the transaction is not admitted or not new. */
  lemma {:induction false} UndisturbedRefused(n: Node, es: seq<Event>, tx: Tx, now: int, ids: seq<string>)
    requires 0 !in Run(n, es).flights && !Clear(n, Run(n, es), tx, now)
    ensures Run(n, es + Attempt(tx, now, ids)) == Run(n, es)
  {
    var watched := es + [Watch(0, tx)];
    RunTo(n, es, Watch(0, tx), Step(n, Run(n, es), Watch(0, tx)));
    RunFour(n, watched, now, ids);
    assert watched + [CheckReplay(0), Read(0)] + [Validate(0, now), Execute(0, now, ids)] == es + Attempt(tx, now, ids);
    RefusedLands(n, Run(n, es), tx, now, ids);
  }

  lemma NotAdded(n: Node, es: seq<Event>, e: Event, currency: string)
    requires !e.Add?
    ensures AddedValue(Changes(n, es + [e]), currency) == AddedValue(Changes(n, es), currency)
  {
    AddedMore(n, es, e, currency);
  }

  lemma OneMore(es: seq<Event>, more: seq<Event>)
    requires more != []
    ensures es + more == es + more[..|more| - 1] + [more[|more| - 1]]
  {
  }

  lemma {:induction false} NothingAdded(n: Node, es: seq<Event>, more: seq<Event>, currency: string)
    requires forall i :: 0 <= i < |more| ==> !more[i].Add?
    ensures AddedValue(Changes(n, es + more), currency) == AddedValue(Changes(n, es), currency)
  {
    if more == [] {
      assert es + more == es;
    } else {
      NothingAdded(n, es, more[..|more| - 1], currency);
      NotAdded(n, es + more[..|more| - 1], more[|more| - 1], currency);
      OneMore(es, more);
    }
  }

  function TopUps(k: Skim): seq<Event> {
    [Add(k.a, Utxo(LIMIT - 1, "INR", k.owner, "", None)), Add(k.b, Utxo(1, "INR", k.owner, "", None))]
  }

  lemma AfterAdd(n: Node, es: seq<Event>, id: string, u: Utxo)
    requires id !in Run(n, es).issued
    ensures var s, s' := Run(n, es), Run(n, es + [Add(id, u)]);
            && s'.db.utxos == s.db.utxos[id := u] && s'.flights == s.flights && s'.db.txKeys == s.db.txKeys
            && s'.issued == s.issued + {id}
  {
    RunTo(n, es, Add(id, u), AddStep(Run(n, es), id, u));
  }

  lemma AfterTopUps(n: Node, k: Skim)
    requires k.a != k.b
    ensures var s := Run(n, TopUps(k));
            s.db.utxos == k.Pile() && s.flights == map[] && s.db.txKeys == map[] && s.issued == {k.a, k.b}
    ensures AddedValue(Changes(n, TopUps(k)), "INR") == LIMIT
  {
    var es := TopUps(k);
    assert [] + [es[0]] == [es[0]] && [es[0]] + [es[1]] == es;
    AfterAdd(n, [], k.a, es[0].u);
    AfterAdd(n, [es[0]], k.b, es[1].u);
    AddedMore(n, [], es[0], "INR");
    AddedMore(n, [es[0]], es[1], "INR");
  }

  lemma SkimClear(n: Node, k: Skim, ids: seq<string>)
    requires k.Signed(n.crypto) && FreshIds(ids, {k.a, k.b})
    ensures Clear(n, Run(n, TopUps(k)), k.AsTx(), 0) && FreshIds(ids, Run(n, TopUps(k)).issued)
  {
    AfterTopUps(n, k);
    SkimAdmitted(n.crypto, Redis, k);
  }

  lemma NoAdds(tx: Tx, now: int, ids: seq<string>)
    ensures forall i :: 0 <= i < 5 ==> |Attempt(tx, now, ids)| == 5 && !Attempt(tx, now, ids)[i].Add?
  {
  }

  lemma SkimAdds(n: Node, k: Skim, ids: seq<string>)
    requires k.a != k.b
    ensures AddedValue(Changes(n, TopUps(k) + Attempt(k.AsTx(), 0, ids)), "INR") == LIMIT
  {
    AfterTopUps(n, k);
    NoAdds(k.AsTx(), 0, ids);
    NothingAdded(n, TopUps(k), Attempt(k.AsTx(), 0, ids), "INR");
  }

  lemma SkimRun(n: Node, k: Skim, ids: seq<string>)
    requires k.Signed(n.crypto) && |ids| == 3 && FreshIds(ids, {k.a, k.b})
    ensures Value(Run(n, TopUps(k) + Attempt(k.AsTx(), 0, ids)).db.utxos, "INR") == LIMIT + 1
  {
    SkimClear(n, k, ids);
    AfterTopUps(n, k);
    UndisturbedApplies(n, TopUps(k), k.AsTx(), 0, ids);
    SkimGains(k, n.feeCollector, ids, {k.a, k.b});
  }

  /** On every node that takes some owner's signatures for two tokens: every run that adds at most bound of a currency
      keeps the live total at what was added, if and only if bound < 10^28 cents. */
  lemma RunConservesIff(n: Node, k: Skim, ids: seq<string>, bound: nat)
    requires k.Signed(n.crypto) && |ids| == 3 && FreshIds(ids, {k.a, k.b})
    ensures (forall es: seq<Event>, currency: string :: AddedValue(Changes(n, es), currency) <= bound ==>
               Value(Run(n, es).db.utxos, currency) == AddedValue(Changes(n, es), currency)) <==> bound < LIMIT
  {
    if bound < LIMIT {
      forall es: seq<Event>, currency: string | AddedValue(Changes(n, es), currency) <= bound
        ensures Value(Run(n, es).db.utxos, currency) == AddedValue(Changes(n, es), currency)
      {
        RunConserves(n, es, currency);
      }
    } else {
      var es := TopUps(k) + Attempt(k.AsTx(), 0, ids);
      SkimRun(n, k, ids);
      SkimAdds(n, k, ids);
      assert Value(Run(n, es).db.utxos, "INR") != AddedValue(Changes(n, es), "INR");
    }
  }
}
