/** Hamilton Core: transfer, mint and burn as database transactions over three tables. */
module HamiltonCore {
  import opened Prelude
  import opened Decimal
  import opened AuditLog
  import opened AuditChain
  import opened Signing
  import opened Syntax

  const MAX_UTXO_LIST := 100
  const IDEM_KEY_MAX_LEN := 128
  const TS_WINDOW_SIG := 60
  const IDEM_STALE_SECS := TS_WINDOW_SIG * 2 + 10
  const ALLOWED_CURRENCIES: set<string> := {"USD", "EUR", "GBP", "SGD", "JPY", "CHF"}

  datatype Reason =
    | TooManyDigits | BadShape | BadKey | WrongNetwork | OutOfWindow | DuplicateIds | BadSignature
    | KeyInFlight | NotAvailable | CurrencyMismatch | OwnershipError | ConservationFailed | IntegrityError

  datatype Body = TxDone(transactionId: string) | MintDone(tokenId: string) | BurnDone(burned: nat) | Detail(reason: Reason)

  datatype Response = Response(status: nat, body: Body)

  function Refuse(r: Reason): Response {
    Response(if r.BadShape? then 422 else if r.KeyInFlight? then 409 else if r.IntegrityError? || r.TooManyDigits? then 500 else 400, Detail(r))
  }

  datatype IdemRow = Pending(createdTs: int) | Complete(response: Response, createdTs: int)

  /** (client_id, idem_key) */
  type Key = (string, string)

  datatype Tables = Tables(utxos: Utxos, audit: seq<AuditRow>, idem: map<Key, IdemRow>)

  /** otherUuid is what uuid.UUID takes besides the plain form: braces, prefixes and other hyphenations. */
  datatype Config = Config(hash: Hash, network: string, otherUuid: string -> bool, verify: Verifier)

  /** A request body with its amounts parsed; tokenId and auditId stand for the uuid4 drawn while it is handled. */
  datatype Request =
    | ProcessTx(transactionId: string, network: string, currency: string, inputs: seq<string>,
                outputs: seq<TxOut>, signer: string, signedAt: int, signature: string)
    | MintToken(amount: nat, currency: string, publicKey: string, tokenId: Uuid4)
    | BurnTokens(tokenIds: seq<string>, network: string, owner: string, signedAt: int, signature: string, auditId: Uuid4)

  // ---------- specification ----------

  /** Parsing fails on an amount of more than 28 digits. */
  predicate DigitsOk(r: Request) {
    match r
    case ProcessTx(_, _, _, _, outputs, _, _, _) => forall i :: 0 <= i < |outputs| ==> outputs[i].amount < LIMIT
    case MintToken(amount, _, _, _) => amount < LIMIT
    case BurnTokens(_, _, _, _, _, _) => true
  }

  predicate WellShaped(r: Request) {
    match r
    case ProcessTx(_, _, currency, inputs, outputs, signer, _, signature) =>
      && currency in ALLOWED_CURRENCIES && 1 <= |inputs| <= MAX_UTXO_LIST && 1 <= |outputs| <= MAX_UTXO_LIST
      && IsHexKey(signer) && IsHexSignature(signature) && forall i :: 0 <= i < |outputs| ==> IsHexKey(outputs[i].receiver)
    case MintToken(_, currency, key, _) => currency in ALLOWED_CURRENCIES && IsHexKey(key)
    case BurnTokens(ids, _, owner, _, signature, _) =>
      1 <= |ids| <= MAX_UTXO_LIST && IsHexKey(owner) && IsHexSignature(signature)
  }

  predicate KeyOk(cfg: Config, key: string) {
    1 <= |key| <= IDEM_KEY_MAX_LEN && (IsUuid(key) || cfg.otherUuid(key))
  }

  function SignedCheck(cfg: Config, network: string, signedAt: int, now: int): Option<Reason> {
    if network != cfg.network then Some(WrongNetwork)
    else if now - signedAt > TS_WINDOW_SIG || signedAt - now > TS_WINDOW_SIG then Some(OutOfWindow)
    else None
  }

  /** What is refused before any transaction begins. */
  function PreCheck(cfg: Config, key: string, r: Request, now: int): Option<Reason> {
    if !DigitsOk(r) then Some(TooManyDigits)
    else if !WellShaped(r) then Some(BadShape)
    else if !KeyOk(cfg, key) then Some(BadKey)
    else match r
      case ProcessTx(_, network, _, inputs, outputs, _, at, signature) =>
        var c := SignedCheck(cfg, network, at, now);
        if c.Some? then c
        else if !NoDup(inputs) || !NoDup(OutIds(outputs)) then Some(DuplicateIds)
        else if !Accepts(cfg.verify, PayloadOf(r), signature) then Some(BadSignature) else None
      case MintToken(_, _, _, _) => None
      case BurnTokens(ids, network, _, at, signature, _) =>
        var c := SignedCheck(cfg, network, at, now);
        if c.Some? then c
        else if !NoDup(ids) then Some(DuplicateIds)
        else if !Accepts(cfg.verify, PayloadOf(r), signature) then Some(BadSignature) else None
  }

  /** Why one token cannot be consumed; only transfers compare the currency. */
  function Verdict(t: Utxos, id: string, currency: Option<string>, owner: string): Option<Reason> {
    if id !in t || t[id].status != Unspent then Some(NotAvailable)
    else if currency.Some? && t[id].currency != currency.value then Some(CurrencyMismatch)
    else if t[id].owner != owner then Some(OwnershipError)
    else None
  }

  predicate Takable(t: Utxos, id: string, currency: Option<string>, owner: string) {
    Held(t, id, owner) && (currency.Some? ==> t[id].currency == currency.value)
  }

  /** The first objection in request order. */
  function FirstBad(t: Utxos, ids: seq<string>, currency: Option<string>, owner: string): (r: Option<Reason>)
    ensures r.None? <==> forall id :: id in ids ==> Takable(t, id, currency, owner)
  {
    if ids == [] then None else
      var v := Verdict(t, ids[0], currency, owner);
      assert ids[0] in ids && (v.None? <==> Takable(t, ids[0], currency, owner));
      assert forall id :: id in ids <==> id == ids[0] || id in ids[1..];
      if v.Some? then v else FirstBad(t, ids[1..], currency, owner)
  }

  function PayloadOf(r: Request): Payload {
    match r
    case ProcessTx(id, network, currency, inputs, outs, signer, at, _) =>
      Transfer(id, network, currency, inputs, outs, signer, at)
    case MintToken(amount, currency, key, _) => Mint(amount, currency, key)
    case BurnTokens(ids, network, owner, at, _, _) => Burn(ids, network, owner, at)
  }

  function TxIdOf(r: Request): string {
    match r
    case ProcessTx(id, _, _, _, _, _, _, _) => id
    case MintToken(_, _, _, tokenId) => tokenId
    case BurnTokens(_, _, _, _, _, auditId) => auditId
  }

  function BodyOf(r: Request): Body {
    match r
    case ProcessTx(id, _, _, _, _, _, _, _) => TxDone(id)
    case MintToken(_, _, _, tokenId) => MintDone(tokenId)
    case BurnTokens(ids, _, _, _, _, _) => BurnDone(|ids|)
  }

  /** Why a transfer cannot swap its inputs for its outputs. */
  function SwapObjection(t: Utxos, inputs: seq<string>, outs: seq<TxOut>, currency: string, signer: string): Option<Reason> {
    var bad := FirstBad(t, inputs, Some(currency), signer);
    if bad.Some? then bad
    else if DecSum(Amounts(t, inputs)) != DecSum(OutAmounts(outs)) then Some(ConservationFailed)
    else if exists o :: o in OutIds(outs) && o in t then Some(IntegrityError)
    else None
  }

  /** The first reason to roll back, or none. */
  function Objection(s: Tables, r: Request): Option<Reason> {
    match r
    case ProcessTx(id, _, currency, inputs, outs, signer, _, _) =>
      var bad := SwapObjection(s.utxos, inputs, outs, currency, signer);
      if bad.Some? then bad else if id in TxIds(s.audit) then Some(IntegrityError) else None
    case MintToken(_, _, _, id) =>
      if id in s.utxos || id in TxIds(s.audit) then Some(IntegrityError) else None
    case BurnTokens(ids, _, owner, _, _, auditId) =>
      var bad := FirstBad(s.utxos, ids, None, owner);
      if bad.Some? then bad else if auditId in TxIds(s.audit) then Some(IntegrityError) else None
  }

  /** The committed state once a request has taken effect. */
  function Committed(cfg: Config, s: Tables, k: Key, r: Request, now: int): Tables {
    Tables(Apply(s.utxos, TxIdOf(r), PayloadOf(r)),
           s.audit + [NewRow(cfg.hash, s.audit, TxIdOf(r), PayloadOf(r))],
           s.idem[k := Complete(Response(200, BodyOf(r)), now)])
  }

  /** One request as a pure function: the whole next state, or the state unchanged, and the reply. */
  function Handle(cfg: Config, s: Tables, client: string, key: string, r: Request, now: int): (Tables, Response) {
    var pre := PreCheck(cfg, key, r, now);
    var k := (client, key);
    if pre.Some? then (s, Refuse(pre.value))
    else if k in s.idem then (s, if s.idem[k].Complete? then s.idem[k].response else Refuse(KeyInFlight))
    else
      var objection := Objection(s, r);
      if objection.Some? then (s, Refuse(objection.value))
      else (Committed(cfg, s, k, r, now), Response(200, BodyOf(r)))
  }

  /** Startup: stale PENDING rows are deleted. */
  function Restarted(s: Tables, now: int): Tables {
    s.(idem := map k | k in s.idem && !(s.idem[k].Pending? && s.idem[k].createdTs < now - IDEM_STALE_SECS) :: s.idem[k])
  }

  // ---------- steps of the consuming loop ----------

  lemma FirstBadStep(t: Utxos, ids: seq<string>, i: nat, currency: Option<string>, owner: string)
    requires i < |ids| && FirstBad(t, ids[..i], currency, owner).None?
    ensures var v := Verdict(t, ids[i], currency, owner);
            && FirstBad(t, ids[i..], currency, owner) == (if v.Some? then v else FirstBad(t, ids[i + 1..], currency, owner))
            && (v.None? <==> FirstBad(t, ids[..i + 1], currency, owner).None?)
  {
    assert ids[i..][0] == ids[i] && ids[i..][1..] == ids[i + 1..];
    assert ids[..i + 1] == ids[..i] + [ids[i]];
    assert ids[i] in ids[..i + 1];
    assert forall id :: id in ids[..i + 1] <==> id == ids[i] || id in ids[..i];
  }

  lemma MarkNone(t: Utxos, status: Status)
    ensures Mark(t, [], status) == t
  {
  }

  lemma AmountsDefined(t: Utxos, ids: seq<string>, currency: Option<string>, owner: string)
    requires FirstBad(t, ids, currency, owner).None?
    ensures forall id :: id in ids ==> id in t
  {
    assert forall id :: id in ids ==> Takable(t, id, currency, owner);
  }

  /** What Finish leaves after IdemAcquire is one COMPLETE row. */
  lemma KeyCompleted(idem: map<Key, IdemRow>, k: Key, now: int, c: IdemRow)
    ensures idem[k := Pending(now)][k := c] == idem[k := c]
  {
  }

  lemma MarkStep(t: Utxos, ids: seq<string>, i: nat, status: Status)
    requires NoDup(ids) && i < |ids|
    ensures var m := Mark(t, ids[..i], status);
            && (ids[i] in m <==> ids[i] in t)
            && (ids[i] in t ==> m[ids[i]] == t[ids[i]] && Mark(t, ids[..i + 1], status) == m[ids[i] := t[ids[i]].(status := status)])
  {
    assert ids[..i + 1] == ids[..i] + [ids[i]];
    assert ids[i] !in ids[..i];
  }

  lemma DecSumStep(t: Utxos, ids: seq<string>, i: nat)
    requires i < |ids| && forall id :: id in ids[..i + 1] ==> id in t
    ensures forall id :: id in ids[..i] ==> id in t
    ensures DecSum(Amounts(t, ids[..i + 1])) == Round28(DecSum(Amounts(t, ids[..i])) + t[ids[i]].amount)
  {
    assert ids[..i + 1] == ids[..i] + [ids[i]];
    assert Amounts(t, ids[..i + 1])[..i] == Amounts(t, ids[..i]);
  }

  ghost predicate ConsumedUpTo(t: Utxos, ids: seq<string>, i: nat, currency: Option<string>, owner: string,
                               status: Status, now: Utxos, total: nat)
    requires i <= |ids|
  {
    && FirstBad(t, ids, currency, owner) == FirstBad(t, ids[i..], currency, owner)
    && FirstBad(t, ids[..i], currency, owner).None?
    && now == Mark(t, ids[..i], status)
    && total == DecSum(Amounts(t, ids[..i]))
  }

  lemma ConsumeStart(t: Utxos, ids: seq<string>, currency: Option<string>, owner: string, status: Status)
    ensures ConsumedUpTo(t, ids, 0, currency, owner, status, t, 0)
  {
    assert ids[..0] == [] && ids[0..] == ids;
    MarkNone(t, status);
  }

  /** The table so far gives the verdict the original table gives. */
  lemma SameVerdict(t: Utxos, ids: seq<string>, i: nat, currency: Option<string>, owner: string, status: Status)
    requires NoDup(ids) && i < |ids|
    ensures var now := Mark(t, ids[..i], status);
            Verdict(now, ids[i], currency, owner) == Verdict(t, ids[i], currency, owner) && (ids[i] in now <==> ids[i] in t)
  {
    assert ids[i] !in ids[..i];
  }

  lemma TakesStillGood(t: Utxos, ids: seq<string>, i: nat, currency: Option<string>, owner: string)
    requires i < |ids| && Verdict(t, ids[i], currency, owner).None?
    requires FirstBad(t, ids, currency, owner) == FirstBad(t, ids[i..], currency, owner)
    requires FirstBad(t, ids[..i], currency, owner).None?
    ensures FirstBad(t, ids, currency, owner) == FirstBad(t, ids[i + 1..], currency, owner)
    ensures FirstBad(t, ids[..i + 1], currency, owner).None? && forall id :: id in ids[..i + 1] ==> id in t
  {
    FirstBadStep(t, ids, i, currency, owner);
    AmountsDefined(t, ids[..i + 1], currency, owner);
  }

  /** A turn of the loop that finds no objection. */
  lemma ConsumeTakes(t: Utxos, ids: seq<string>, i: nat, currency: Option<string>, owner: string,
                     status: Status, now: Utxos, total: nat)
    requires NoDup(ids) && i < |ids| && ConsumedUpTo(t, ids, i, currency, owner, status, now, total)
    requires Verdict(t, ids[i], currency, owner).None? && ids[i] in now
    ensures ConsumedUpTo(t, ids, i + 1, currency, owner, status,
                         now[ids[i] := now[ids[i]].(status := status)], Round28(total + now[ids[i]].amount))
  {
    TakesStillGood(t, ids, i, currency, owner);
    MarkStep(t, ids, i, status);
    DecSumStep(t, ids, i);
  }

  /** A turn of the loop that finds one. */
  lemma ConsumeObjects(t: Utxos, ids: seq<string>, i: nat, currency: Option<string>, owner: string,
                       status: Status, now: Utxos, total: nat)
    requires NoDup(ids) && i < |ids| && ConsumedUpTo(t, ids, i, currency, owner, status, now, total)
    requires Verdict(now, ids[i], currency, owner).Some?
    ensures FirstBad(t, ids, currency, owner) == Verdict(now, ids[i], currency, owner)
  {
    SameVerdict(t, ids, i, currency, owner, status);
    FirstBadStep(t, ids, i, currency, owner);
  }

  lemma ConsumeTurn(t: Utxos, ids: seq<string>, i: nat, currency: Option<string>, owner: string,
                    status: Status, now: Utxos, total: nat)
    requires NoDup(ids) && i < |ids| && ConsumedUpTo(t, ids, i, currency, owner, status, now, total)
    ensures Verdict(now, ids[i], currency, owner).Some? ==>
              FirstBad(t, ids, currency, owner) == Verdict(now, ids[i], currency, owner)
    ensures Verdict(now, ids[i], currency, owner).None? ==> ids[i] in now
    ensures Verdict(now, ids[i], currency, owner).None? ==>
              ConsumedUpTo(t, ids, i + 1, currency, owner, status,
                           now[ids[i] := now[ids[i]].(status := status)], Round28(total + now[ids[i]].amount))
  {
    if Verdict(now, ids[i], currency, owner).Some? {
      ConsumeObjects(t, ids, i, currency, owner, status, now, total);
    } else {
      SameVerdict(t, ids, i, currency, owner, status);
      ConsumeTakes(t, ids, i, currency, owner, status, now, total);
    }
  }

  lemma MoreRows(t: Utxos, made: Utxos, id: string, row: Row)
    ensures (t + made)[id := row] == t + made[id := row]
  {
  }

  lemma NotYetStored(outs: seq<TxOut>, i: nat, currency: string)
    requires NoDup(OutIds(outs)) && i < |outs|
    ensures outs[i].tokenId !in OutRows(outs[..i], currency)
  {
    OutRowsAt(outs[..i], currency);
    assert OutIds(outs[..i]) == OutIds(outs)[..i] && OutIds(outs)[i] == outs[i].tokenId;
  }

  lemma OutputStep(t: Utxos, outs: seq<TxOut>, i: nat, currency: string)
    requires NoDup(OutIds(outs)) && i < |outs|
    ensures OutIds(outs)[i] == outs[i].tokenId
    ensures outs[i].tokenId in t + OutRows(outs[..i], currency) <==> outs[i].tokenId in t
    ensures (t + OutRows(outs[..i], currency))[outs[i].tokenId := Row(outs[i].amount, currency, outs[i].receiver, Unspent)] ==
            t + OutRows(outs[..i + 1], currency)
  {
    NotYetStored(outs, i, currency);
    assert outs[..i + 1][..i] == outs[..i];
    MoreRows(t, OutRows(outs[..i], currency), outs[i].tokenId, Row(outs[i].amount, currency, outs[i].receiver, Unspent));
  }

  lemma BurnApplies(t: Utxos, r: Request)
    requires r.BurnTokens?
    ensures Mark(t, r.tokenIds, Burned) == Apply(t, r.auditId, PayloadOf(r))
  {
  }

  // ---------- the service ----------

  class Service {
    const cfg: Config
    // The database as of the last COMMIT, and the working tables of the open transaction.
    var committed: Tables
    var utxos: Utxos
    var audit: seq<AuditRow>
    var idem: map<Key, IdemRow>

    ghost predicate Settled()
      reads this
    {
      committed == Tables(utxos, audit, idem)
    }

    constructor (cfg: Config)
      ensures Settled() && this.cfg == cfg && committed == Tables(map[], [], map[])
    {
      this.cfg := cfg;
      committed := Tables(map[], [], map[]);
      utxos, audit, idem := map[], [], map[];
    }

    method Commit()
      modifies this
      ensures Settled() && utxos == old(utxos) && audit == old(audit) && idem == old(idem)
    {
      committed := Tables(utxos, audit, idem);
    }

    method Rollback()
      modifies this
      ensures Settled() && committed == old(committed)
    {
      utxos, audit, idem := committed.utxos, committed.audit, committed.idem;
    }

    method GcStaleIdem(now: int)
      requires Settled()
      modifies this
      ensures Settled() && committed == Restarted(old(committed), now)
      ensures utxos == old(utxos) && audit == old(audit)
      ensures forall k :: k in idem <==> k in old(idem) && (old(idem)[k].Complete? || old(idem)[k].createdTs >= now - 130)
      ensures forall k :: k in idem ==> idem[k] == old(idem)[k]
    {
      var cutoff := now - IDEM_STALE_SECS;
      idem := map k | k in idem && !(idem[k].Pending? && idem[k].createdTs < cutoff) :: idem[k];
      Commit();
    }

    /** The cached reply of a finished key, 409 for an unfinished one, otherwise a new PENDING row. */
    method IdemAcquire(k: Key, now: int) returns (reply: Option<Response>)
      modifies this`idem
      ensures k in old(idem) ==> idem == old(idem)
      ensures k in old(idem) ==> reply == Some(if idem[k].Complete? then idem[k].response else Response(409, Detail(KeyInFlight)))
      ensures k !in old(idem) ==> reply == None && idem == old(idem)[k := Pending(now)]
    {
      if k in idem {
        return Some(if idem[k].Complete? then idem[k].response else Refuse(KeyInFlight));
      }
      idem := idem[k := Pending(now)];
      reply := None;
    }

    /** Completes a PENDING row; ok says that there was exactly one. */
    method IdemComplete(k: Key, response: Response) returns (ok: bool)
      modifies this`idem
      ensures ok <==> k in old(idem) && old(idem)[k].Pending?
      ensures idem == if ok then old(idem)[k := Complete(response, old(idem)[k].createdTs)] else old(idem)
    {
      ok := k in idem && idem[k].Pending?;
      if ok {
        idem := idem[k := Complete(response, idem[k].createdTs)];
      }
    }

    /** Appends a chained row, unless tx_id is taken. */
    method AuditInsert(txId: string, p: Payload) returns (ok: bool)
      modifies this`audit
      ensures ok <==> txId !in TxIds(old(audit))
      ensures audit == if ok then old(audit) + [NewRow(cfg.hash, old(audit), txId, p)] else old(audit)
    {
      var prev := if |audit| > 0 then audit[|audit| - 1].chainHash else "";
      ok := forall i :: 0 <= i < |audit| ==> audit[i].txId != txId;
      assert ok <==> txId !in TxIds(audit) by {
        assert forall i :: 0 <= i < |audit| ==> TxIds(audit)[i] == audit[i].txId;
      }
      if ok {
        audit := audit + [AuditRow(txId, p, prev, cfg.hash(prev + Render(p)))];
      }
    }

    /** Consumes tokens one by one, stopping at the first objection; total is their running sum. */
    method Consume(ids: seq<string>, currency: Option<string>, owner: string, status: Status)
      returns (bad: Option<Reason>, total: nat)
      requires NoDup(ids) && status != Unspent
      modifies this`utxos
      ensures bad == FirstBad(old(utxos), ids, currency, owner)
      ensures bad.None? ==> utxos == Mark(old(utxos), ids, status) && total == DecSum(Amounts(old(utxos), ids))
    {
      ghost var t := utxos;
      total := 0;
      var i := 0;
      ConsumeStart(t, ids, currency, owner, status);
      while i < |ids|
        invariant 0 <= i <= |ids|
        invariant ConsumedUpTo(t, ids, i, currency, owner, status, utxos, total)
      {
        var id := ids[i];
        ConsumeTurn(t, ids, i, currency, owner, status, utxos, total);
        if id !in utxos || utxos[id].status != Unspent {
          return Some(NotAvailable), total;
        }
        if currency.Some? && utxos[id].currency != currency.value {
          return Some(CurrencyMismatch), total;
        }
        if utxos[id].owner != owner {
          return Some(OwnershipError), total;
        }
        total := Round28(total + utxos[id].amount);
        utxos := utxos[id := utxos[id].(status := status)];
        i := i + 1;
      }
      assert ids[..i] == ids;
      bad := None;
    }

    /** Inserts output rows one by one; a primary-key clash stops it. */
    method InsertOutputs(outs: seq<TxOut>, currency: string) returns (ok: bool)
      requires NoDup(OutIds(outs))
      modifies this`utxos
      ensures ok <==> forall o :: o in OutIds(outs) ==> o !in old(utxos)
      ensures ok ==> utxos == old(utxos) + OutRows(outs, currency)
    {
      var i := 0;
      assert outs[..0] == [];
      while i < |outs|
        invariant 0 <= i <= |outs|
        invariant utxos == old(utxos) + OutRows(outs[..i], currency)
        invariant forall j :: 0 <= j < i ==> OutIds(outs)[j] !in old(utxos)
      {
        var o := outs[i];
        OutputStep(old(utxos), outs, i, currency);
        if o.tokenId in utxos {
          return false;
        }
        utxos := utxos[o.tokenId := Row(o.amount, currency, o.receiver, Unspent)];
        i := i + 1;
      }
      assert outs[..i] == outs;
      ok := true;
    }

    method SumOutputs(outs: seq<TxOut>) returns (total: nat)
      ensures total == DecSum(OutAmounts(outs))
    {
      total := 0;
      for i := 0 to |outs|
        invariant total == DecSum(OutAmounts(outs[..i]))
      {
        assert OutAmounts(outs[..i + 1])[..i] == OutAmounts(outs[..i]);
        total := Round28(total + outs[i].amount);
      }
      assert outs[..|outs|] == outs;
    }

    /** Takes the inputs, compares the totals, stores the outputs; the caller rolls back on an objection. */
    method Swap(inputs: seq<string>, outs: seq<TxOut>, currency: string, signer: string) returns (bad: Option<Reason>)
      requires NoDup(inputs) && NoDup(OutIds(outs))
      modifies this`utxos
      ensures bad == SwapObjection(old(utxos), inputs, outs, currency, signer)
      ensures bad.None? ==> utxos == Mark(old(utxos), inputs, Spent) + OutRows(outs, currency)
    {
      var inTotal;
      bad, inTotal := Consume(inputs, Some(currency), signer, Spent);
      if bad.Some? {
        return;
      }
      var outTotal := SumOutputs(outs);
      if inTotal != outTotal {
        return Some(ConservationFailed);
      }
      var ok := InsertOutputs(outs, currency);
      bad := if ok then None else Some(IntegrityError);
    }

    /** The common end of every request: audit row, completed key, COMMIT; or ROLLBACK. */
    method Finish(k: Key, txId: string, p: Payload, body: Body) returns (reply: Response)
      requires k in idem && idem[k].Pending?
      modifies this
      ensures Settled()
      ensures txId in TxIds(old(audit)) ==> committed == old(committed) && reply == Refuse(IntegrityError)
      ensures txId !in TxIds(old(audit)) ==>
        && reply == Response(200, body)
        && committed == Tables(old(utxos), old(audit) + [NewRow(cfg.hash, old(audit), txId, p)],
                               old(idem)[k := Complete(reply, old(idem)[k].createdTs)])
    {
      var ok := AuditInsert(txId, p);
      if ok {
        ok := IdemComplete(k, Response(200, body));
      }
      if !ok {
        Rollback();
        return Refuse(IntegrityError);
      }
      Commit();
      reply := Response(200, body);
    }

    method Transfer(client: string, key: string, r: Request, now: int) returns (reply: Response)
      requires Settled() && r.ProcessTx?
      modifies this
      ensures Settled() && (committed, reply) == Handle(cfg, old(committed), client, key, r, now)
    {
      var pre := PreCheck(cfg, key, r, now);
      if pre.Some? {
        return Refuse(pre.value);
      }
      var cached := IdemAcquire((client, key), now);
      if cached.Some? {
        Commit();
        return cached.value;
      }
      var bad := Swap(r.inputs, r.outputs, r.currency, r.signer);
      if bad.Some? {
        Rollback();
        return Refuse(bad.value);
      }
      assert utxos == Apply(committed.utxos, r.transactionId, PayloadOf(r));
      KeyCompleted(committed.idem, (client, key), now, Complete(Response(200, BodyOf(r)), now));
      reply := Finish((client, key), r.transactionId, PayloadOf(r), TxDone(r.transactionId));
    }

    method Mint(client: string, key: string, r: Request, now: int) returns (reply: Response)
      requires Settled() && r.MintToken?
      modifies this
      ensures Settled() && (committed, reply) == Handle(cfg, old(committed), client, key, r, now)
    {
      var pre := PreCheck(cfg, key, r, now);
      if pre.Some? {
        return Refuse(pre.value);
      }
      var cached := IdemAcquire((client, key), now);
      if cached.Some? {
        Commit();
        return cached.value;
      }
      if r.tokenId in utxos {
        Rollback();
        return Refuse(IntegrityError);
      }
      MarkNone(utxos, Spent);
      utxos := utxos[r.tokenId := Row(r.amount, r.currency, r.publicKey, Unspent)];
      assert utxos == Apply(old(utxos), r.tokenId, PayloadOf(r));
      KeyCompleted(committed.idem, (client, key), now, Complete(Response(200, BodyOf(r)), now));
      reply := Finish((client, key), r.tokenId, PayloadOf(r), MintDone(r.tokenId));
    }

    method Burn(client: string, key: string, r: Request, now: int) returns (reply: Response)
      requires Settled() && r.BurnTokens?
      modifies this
      ensures Settled() && (committed, reply) == Handle(cfg, old(committed), client, key, r, now)
    {
      var pre := PreCheck(cfg, key, r, now);
      if pre.Some? {
        return Refuse(pre.value);
      }
      var cached := IdemAcquire((client, key), now);
      if cached.Some? {
        Commit();
        return cached.value;
      }
      var bad, _ := Consume(r.tokenIds, None, r.owner, Burned);
      if bad.Some? {
        Rollback();
        return Refuse(bad.value);
      }
      BurnApplies(committed.utxos, r);
      KeyCompleted(committed.idem, (client, key), now, Complete(Response(200, BodyOf(r)), now));
      reply := Finish((client, key), r.auditId, PayloadOf(r), BurnDone(|r.tokenIds|));
    }
  }
}
