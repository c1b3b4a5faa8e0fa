/** Exactly which requests Hamilton Core executes, what each leaves in the tables and what it is answered. */
module HamiltonRequests {
  import opened Prelude
  import opened Decimal
  import opened AuditLog
  import opened AuditChain
  import opened Signing
  import opened Syntax
  import opened HamiltonCore
  import opened HamiltonRuns

  // ---------- what a request must be ----------

  predicate UsableKey(cfg: Config, key: string) {
    1 <= |key| <= 128 && (IsUuid(key) || cfg.otherUuid(key))
  }

  predicate Allowed(currency: string) {
    currency in {"USD", "EUR", "GBP", "SGD", "JPY", "CHF"}
  }

  /** Signed for this network, within a minute of now, by the holder of the key. */
  predicate SignedNow(cfg: Config, network: string, at: int, now: int, key: string, text: string, signature: string) {
    network == cfg.network && -60 <= now - at <= 60 && AllHex(key, 64) && AllHex(signature, 128) && cfg.verify(key, text, signature)
  }

  /** A well-formed, signed transfer, whatever the tables hold. */
  predicate TransferAsked(cfg: Config, key: string, r: Request, now: int)
    requires r.ProcessTx?
  {
    && UsableKey(cfg, key) && Allowed(r.currency) && 1 <= |r.inputs| <= 100 && 1 <= |r.outputs| <= 100
    && (forall o :: o in r.outputs ==> o.amount < LIMIT && IsHexKey(o.receiver))
    && (forall i, j :: 0 <= i < j < |r.inputs| ==> r.inputs[i] != r.inputs[j])
    && (forall i, j :: 0 <= i < j < |r.outputs| ==> r.outputs[i].tokenId != r.outputs[j].tokenId)
    && SignedNow(cfg, r.network, r.signedAt, now, r.signer,
                 SignedText(Transfer(r.transactionId, r.network, r.currency, r.inputs, r.outputs, r.signer, r.signedAt)), r.signature)
  }

  predicate BurnAsked(cfg: Config, key: string, r: Request, now: int)
    requires r.BurnTokens?
  {
    && UsableKey(cfg, key) && 1 <= |r.tokenIds| <= 100
    && (forall i, j :: 0 <= i < j < |r.tokenIds| ==> r.tokenIds[i] != r.tokenIds[j])
    && SignedNow(cfg, r.network, r.signedAt, now, r.owner,
                 SignedText(Burn(r.tokenIds, r.network, r.owner, r.signedAt)), r.signature)
  }

  predicate MintAsked(cfg: Config, key: string, r: Request)
    requires r.MintToken?
  {
    UsableKey(cfg, key) && Allowed(r.currency) && r.amount < LIMIT && IsHexKey(r.publicKey)
  }

  predicate Asked(cfg: Config, key: string, r: Request, now: int) {
    match r
    case ProcessTx(_, _, _, _, _, _, _, _) => TransferAsked(cfg, key, r, now)
    case MintToken(_, _, _, _) => MintAsked(cfg, key, r)
    case BurnTokens(_, _, _, _, _, _) => BurnAsked(cfg, key, r, now)
  }

  // ---------- what the tables must hold ----------

  predicate Recorded(s: Tables, txId: string) {
    exists i :: 0 <= i < |s.audit| && s.audit[i].txId == txId
  }

  /** Unspent tokens of the signer, worth the outputs, whose ids are new. */
  predicate TransferFits(s: Tables, r: Request)
    requires r.ProcessTx?
  {
    && (forall id :: id in r.inputs ==> id in s.utxos && s.utxos[id].status == Unspent && s.utxos[id].owner == r.signer
                                        && s.utxos[id].currency == r.currency)
    && DecSum(Amounts(s.utxos, r.inputs)) == DecSum(OutAmounts(r.outputs))
    && (forall o :: o in r.outputs ==> o.tokenId !in s.utxos)
    && !Recorded(s, r.transactionId)
  }

  predicate Fits(s: Tables, r: Request) {
    match r
    case ProcessTx(_, _, _, _, _, _, _, _) => TransferFits(s, r)
    case MintToken(_, _, _, id) => id !in s.utxos && !Recorded(s, id)
    case BurnTokens(ids, _, owner, _, _, auditId) =>
      && (forall id :: id in ids ==> id in s.utxos && s.utxos[id].status == Unspent && s.utxos[id].owner == owner)
      && !Recorded(s, auditId)
  }

  // ---------- what an executed request leaves ----------

  /** The log grows by one row, chained to the one before, and the key keeps the reply. */
  ghost predicate Chains(cfg: Config, s: Tables, s': Tables, k: Key, txId: string, p: Payload, body: Body, now: int) {
    && |s'.audit| == |s.audit| + 1 && s.audit <= s'.audit
    && var row := s'.audit[|s.audit|];
       && row.txId == txId && row.payload == p
       && row.prevHash == (if s.audit == [] then "" else s.audit[|s.audit| - 1].chainHash)
       && row.chainHash == cfg.hash(row.prevHash + Render(p))
       && s'.idem == s.idem[k := Complete(Response(200, body), now)]
  }

  ghost predicate Transferred(cfg: Config, s: Tables, s': Tables, k: Key, r: Request, now: int)
    requires r.ProcessTx?
  {
    && (forall id :: id in s'.utxos <==> id in s.utxos || exists o :: o in r.outputs && o.tokenId == id)
    && (forall id :: id in s.utxos ==>
          s'.utxos[id] == if id in r.inputs then s.utxos[id].(status := Spent) else s.utxos[id])
    && (forall o :: o in r.outputs ==> s'.utxos[o.tokenId] == Row(o.amount, r.currency, o.receiver, Unspent))
    && Chains(cfg, s, s', k, r.transactionId,
              Transfer(r.transactionId, r.network, r.currency, r.inputs, r.outputs, r.signer, r.signedAt),
              TxDone(r.transactionId), now)
  }

  ghost predicate WasMinted(cfg: Config, s: Tables, s': Tables, k: Key, r: Request, now: int)
    requires r.MintToken?
  {
    && s'.utxos == s.utxos[r.tokenId := Row(r.amount, r.currency, r.publicKey, Unspent)]
    && Chains(cfg, s, s', k, r.tokenId, Mint(r.amount, r.currency, r.publicKey), MintDone(r.tokenId), now)
  }

  ghost predicate WasBurned(cfg: Config, s: Tables, s': Tables, k: Key, r: Request, now: int)
    requires r.BurnTokens?
  {
    && s'.utxos.Keys == s.utxos.Keys
    && (forall id :: id in s.utxos ==>
          s'.utxos[id] == if id in r.tokenIds then s.utxos[id].(status := Burned) else s.utxos[id])
    && Chains(cfg, s, s', k, r.auditId, Burn(r.tokenIds, r.network, r.owner, r.signedAt), BurnDone(|r.tokenIds|), now)
  }

  ghost predicate Done(cfg: Config, s: Tables, s': Tables, k: Key, r: Request, now: int) {
    match r
    case ProcessTx(_, _, _, _, _, _, _, _) => Transferred(cfg, s, s', k, r, now)
    case MintToken(_, _, _, _) => WasMinted(cfg, s, s', k, r, now)
    case BurnTokens(_, _, _, _, _, _) => WasBurned(cfg, s, s', k, r, now)
  }

  // ---------- the checks before the transaction ----------

  lemma HexKeys(s: string)
    ensures AllHex(s, 64) ==> IsHexKey(s)
    ensures AllHex(s, 128) ==> IsHexSignature(s)
  {
    if AllHex(s, 64) || AllHex(s, 128) {
      HexPairs(s);
    }
  }

  lemma OutputsAt(r: Request)
    requires r.ProcessTx?
    ensures (forall o :: o in r.outputs ==> o.amount < LIMIT && IsHexKey(o.receiver)) <==>
            forall i :: 0 <= i < |r.outputs| ==> r.outputs[i].amount < LIMIT && IsHexKey(r.outputs[i].receiver)
    ensures NoDup(OutIds(r.outputs)) <==>
            forall i, j :: 0 <= i < j < |r.outputs| ==> r.outputs[i].tokenId != r.outputs[j].tokenId
  {
    assert forall i :: 0 <= i < |r.outputs| ==> OutIds(r.outputs)[i] == r.outputs[i].tokenId;
  }

  lemma TransferPreCheck(cfg: Config, key: string, r: Request, now: int)
    requires r.ProcessTx?
    ensures PreCheck(cfg, key, r, now).None? <==> TransferAsked(cfg, key, r, now)
  {
    OutputsAt(r);
    HexKeys(r.signer);
    HexKeys(r.signature);
  }

  lemma BurnPreCheck(cfg: Config, key: string, r: Request, now: int)
    requires r.BurnTokens?
    ensures PreCheck(cfg, key, r, now).None? <==> BurnAsked(cfg, key, r, now)
  {
    HexKeys(r.owner);
    HexKeys(r.signature);
  }

  lemma PreCheckIff(cfg: Config, key: string, r: Request, now: int)
    ensures PreCheck(cfg, key, r, now).None? <==> Asked(cfg, key, r, now)
  {
    match r
    case ProcessTx(_, _, _, _, _, _, _, _) => TransferPreCheck(cfg, key, r, now);
    case MintToken(_, _, _, _) =>
    case BurnTokens(_, _, _, _, _, _) => BurnPreCheck(cfg, key, r, now);
  }

  // ---------- the checks inside it ----------

  lemma RecordedIff(s: Tables, txId: string)
    ensures Recorded(s, txId) <==> txId in TxIds(s.audit)
  {
    assert forall i :: 0 <= i < |s.audit| ==> TxIds(s.audit)[i] == s.audit[i].txId;
  }

  lemma NewIds(t: Utxos, outs: seq<TxOut>)
    ensures (forall o :: o in outs ==> o.tokenId !in t) <==> !exists id :: id in OutIds(outs) && id in t
  {
    forall o | o in outs ensures o.tokenId in OutIds(outs) {
      var i :| 0 <= i < |outs| && outs[i] == o;
      assert OutIds(outs)[i] == o.tokenId;
    }
    forall id | id in OutIds(outs) ensures exists o :: o in outs && o.tokenId == id {
      var i :| 0 <= i < |outs| && OutIds(outs)[i] == id;
      assert outs[i] in outs;
    }
  }

  lemma SwapIff(t: Utxos, inputs: seq<string>, outs: seq<TxOut>, currency: string, signer: string)
    ensures SwapObjection(t, inputs, outs, currency, signer).None? <==>
            && (forall id :: id in inputs ==> Takable(t, id, Some(currency), signer))
            && DecSum(Amounts(t, inputs)) == DecSum(OutAmounts(outs)) && forall o :: o in outs ==> o.tokenId !in t
  {
    NewIds(t, outs);
  }

  lemma ObjectionIff(s: Tables, r: Request)
    ensures Objection(s, r).None? <==> Fits(s, r)
  {
    RecordedIff(s, TxIdOf(r));
    match r
    case ProcessTx(_, _, currency, inputs, outs, signer, _, _) =>
      SwapIff(s.utxos, inputs, outs, currency, signer);
      assert forall id :: id in inputs ==> (Takable(s.utxos, id, Some(currency), signer) <==>
        id in s.utxos && s.utxos[id].status == Unspent && s.utxos[id].owner == signer && s.utxos[id].currency == currency);
    case MintToken(_, _, _, _) =>
    case BurnTokens(ids, _, owner, _, _, _) =>
      assert forall id :: id in ids ==> (Takable(s.utxos, id, None, owner) <==>
        id in s.utxos && s.utxos[id].status == Unspent && s.utxos[id].owner == owner);
  }

  // ---------- the effects ----------

  lemma MarkedRows(t: Utxos, ids: seq<string>, status: Status)
    ensures Mark(t, ids, status).Keys == t.Keys
    ensures forall id :: id in t ==> Mark(t, ids, status)[id] == if id in ids then t[id].(status := status) else t[id]
  {
  }

  lemma NewRows(outs: seq<TxOut>, currency: string)
    requires NoDup(OutIds(outs))
    ensures forall id :: id in OutRows(outs, currency) <==> exists o :: o in outs && o.tokenId == id
    ensures forall o :: o in outs ==> o.tokenId in OutRows(outs, currency)
    ensures forall o :: o in outs ==> OutRows(outs, currency)[o.tokenId] == Row(o.amount, currency, o.receiver, Unspent)
  {
    OutRowsAt(outs, currency);
    forall o | o in outs
      ensures o.tokenId in OutRows(outs, currency) && OutRows(outs, currency)[o.tokenId] == Row(o.amount, currency, o.receiver, Unspent)
    {
      var i :| 0 <= i < |outs| && outs[i] == o;
      assert OutIds(outs)[i] == o.tokenId;
    }
    forall id | id in OutRows(outs, currency) ensures exists o :: o in outs && o.tokenId == id {
      var i :| 0 <= i < |outs| && OutIds(outs)[i] == id;
      assert outs[i] in outs;
    }
  }

  lemma CommittedChains(cfg: Config, s: Tables, k: Key, r: Request, now: int)
    ensures Chains(cfg, s, Committed(cfg, s, k, r, now), k, TxIdOf(r), PayloadOf(r), BodyOf(r), now)
  {
  }

  lemma TransferEffect(cfg: Config, s: Tables, k: Key, r: Request, now: int)
    requires r.ProcessTx? && NoDup(OutIds(r.outputs)) && forall o :: o in r.outputs ==> o.tokenId !in s.utxos
    ensures Transferred(cfg, s, Committed(cfg, s, k, r, now), k, r, now)
  {
    CommittedChains(cfg, s, k, r, now);
    MarkedRows(s.utxos, r.inputs, Spent);
    NewRows(r.outputs, r.currency);
    assert Apply(s.utxos, TxIdOf(r), PayloadOf(r)) == Mark(s.utxos, r.inputs, Spent) + OutRows(r.outputs, r.currency);
  }

  lemma MintEffect(cfg: Config, s: Tables, k: Key, r: Request, now: int)
    requires r.MintToken?
    ensures WasMinted(cfg, s, Committed(cfg, s, k, r, now), k, r, now)
  {
    CommittedChains(cfg, s, k, r, now);
    MarkNone(s.utxos, Spent);
  }

  lemma BurnEffect(cfg: Config, s: Tables, k: Key, r: Request, now: int)
    requires r.BurnTokens?
    ensures WasBurned(cfg, s, Committed(cfg, s, k, r, now), k, r, now)
  {
    CommittedChains(cfg, s, k, r, now);
    MarkedRows(s.utxos, r.tokenIds, Burned);
    BurnApplies(s.utxos, r);
  }

  lemma CommittedDone(cfg: Config, s: Tables, key: string, k: Key, r: Request, now: int)
    requires Asked(cfg, key, r, now) && Fits(s, r)
    ensures Done(cfg, s, Committed(cfg, s, k, r, now), k, r, now)
  {
    match r
    case ProcessTx(_, _, _, _, _, _, _, _) =>
      OutputsAt(r);
      TransferEffect(cfg, s, k, r, now);
    case MintToken(_, _, _, _) => MintEffect(cfg, s, k, r, now);
    case BurnTokens(_, _, _, _, _, _) => BurnEffect(cfg, s, k, r, now);
  }

  // ---------- over runs ----------

  /** In any reached state, a request is executed if and only if it is well formed, on time and signed as its kind demands,
      its key is new, and the tables hold what it takes; then it leaves exactly its effect, otherwise nothing. */
  lemma {:induction false} ExecutedIff(cfg: Config, es: seq<Event>, client: string, key: string, r: Request, now: int)
    ensures var s, s' := Run(cfg, es), Run(cfg, es + [Handled(client, key, r, now)]);
            var runs := Asked(cfg, key, r, now) && (client, key) !in s.idem && Fits(s, r);
            && (|s'.audit| > |s.audit| <==> runs)
            && (if runs then Done(cfg, s, s', (client, key), r, now) else s' == s)
  {
    RunOneMore(cfg, es, Handled(client, key, r, now));
    PreCheckIff(cfg, key, r, now);
    ObjectionIff(Run(cfg, es), r);
    if Asked(cfg, key, r, now) && Fits(Run(cfg, es), r) {
      CommittedDone(cfg, Run(cfg, es), key, (client, key), r, now);
    }
  }

  /** Event i of a run lengthened the log. */
  ghost predicate Lengthens(cfg: Config, es: seq<Event>, i: nat)
    requires i < |es|
  {
    |Run(cfg, es[..i + 1]).audit| > |Run(cfg, es[..i]).audit|
  }

  ghost predicate UsedAt(cfg: Config, es: seq<Event>, k: Key, i: int) {
    0 <= i < |es| && es[i].Handled? && (es[i].client, es[i].key) == k && Lengthens(cfg, es, i)
  }

  lemma UsedAtFront(cfg: Config, es: seq<Event>, k: Key, i: int)
    requires es != [] && i < |es| - 1
    ensures UsedAt(cfg, es, k, i) <==> UsedAt(cfg, es[..|es| - 1], k, i)
  {
    if 0 <= i {
      assert es[..|es| - 1][..i] == es[..i] && es[..|es| - 1][..i + 1] == es[..i + 1];
    }
  }

  lemma KeysGrow(cfg: Config, es: seq<Event>, e: Event)
    ensures var s, s' := Run(cfg, es), Run(cfg, es + [e]);
            s'.idem.Keys == s.idem.Keys + if e.Handled? && |s'.audit| > |s.audit| then {(e.client, e.key)} else {}
  {
    RunOneMore(cfg, es, e);
    if e.Handled? {
      ExecutedIff(cfg, es, e.client, e.key, e.r, e.now);
    } else {
      NothingPending(cfg, es, e.now);
    }
  }

  /** A key is taken exactly when an earlier request of the same client was executed under it. */
  lemma {:induction false} KeyTakenIff(cfg: Config, es: seq<Event>, k: Key)
    ensures k in Run(cfg, es).idem <==> exists i :: UsedAt(cfg, es, k, i)
  {
    if es != [] {
      var n := |es| - 1;
      var front, e := es[..n], es[n];
      assert es == front + [e] && es[..n + 1] == es;
      KeyTakenIff(cfg, front, k);
      KeysGrow(cfg, front, e);
      forall i | i < n ensures UsedAt(cfg, es, k, i) <==> UsedAt(cfg, front, k, i) {
        UsedAtFront(cfg, es, k, i);
      }
      if UsedAt(cfg, es, k, n) {
        assert k in Run(cfg, es).idem;
      }
      if i :| UsedAt(cfg, front, k, i) {
        assert UsedAt(cfg, es, k, i);
      }
    }
  }

  // ---------- answers ----------

  function Answer(cfg: Config, es: seq<Event>, client: string, key: string, r: Request, now: int): Response {
    Handle(cfg, Run(cfg, es), client, key, r, now).1
  }

  lemma {:induction false} StoredAreOk(cfg: Config, es: seq<Event>)
    ensures var s := Run(cfg, es); forall k :: k in s.idem ==> s.idem[k].Complete? && s.idem[k].response.status == 200
  {
    if es != [] {
      var front, e := es[..|es| - 1], es[|es| - 1];
      assert es == front + [e];
      StoredAreOk(cfg, front);
      if e.Handled? {
        ExecutedIff(cfg, front, e.client, e.key, e.r, e.now);
      } else {
        NothingPending(cfg, front, e.now);
      }
    }
  }

  /** The reply to an executed request: a transfer names its transaction, a mint its new token, a burn how many it burned. */
  predicate Tells(r: Request, a: Response) {
    a.status == 200 && match r
      case ProcessTx(id, _, _, _, _, _, _, _) => a.body == TxDone(id)
      case MintToken(_, _, _, tokenId) => a.body == MintDone(tokenId)
      case BurnTokens(ids, _, _, _, _, _) => a.body == BurnDone(|ids|)
  }

  /** A request is answered 200 if and only if it is well formed, on time and signed, and was executed now or its key was
      used before; in the latter case the reply is the one stored then. */
  lemma {:induction false} AnsweredIff(cfg: Config, es: seq<Event>, client: string, key: string, r: Request, now: int)
    ensures var s, a := Run(cfg, es), Answer(cfg, es, client, key, r, now);
            && (a.status == 200 <==> Asked(cfg, key, r, now) && ((client, key) in s.idem || Fits(s, r)))
            && (a.status == 200 ==>
                  if (client, key) in s.idem then s.idem[(client, key)].Complete? && a == s.idem[(client, key)].response else Tells(r, a))
  {
    PreCheckIff(cfg, key, r, now);
    ObjectionIff(Run(cfg, es), r);
    StoredAreOk(cfg, es);
  }

  /** A signed request more than a minute away from its signing time is refused and changes nothing. */
  lemma {:induction false} StaleIsRefused(cfg: Config, es: seq<Event>, client: string, key: string, r: Request, now: int)
    requires !r.MintToken? && !(-60 <= now - r.signedAt <= 60)
    ensures Run(cfg, es + [Handled(client, key, r, now)]) == Run(cfg, es)
    ensures Answer(cfg, es, client, key, r, now).status != 200
    ensures Asked(cfg, key, r, r.signedAt) ==> Answer(cfg, es, client, key, r, now) == Response(400, Detail(OutOfWindow))
  {
    ExecutedIff(cfg, es, client, key, r, now);
    AnsweredIff(cfg, es, client, key, r, now);
    PreCheckIff(cfg, key, r, r.signedAt);
  }

  // ---------- refusals ----------

  predicate MisshapenTransfer(r: Request)
    requires r.ProcessTx?
  {
    || !Allowed(r.currency) || !(1 <= |r.inputs| <= 100) || !(1 <= |r.outputs| <= 100) || !IsHexKey(r.signer)
    || !IsHexSignature(r.signature) || exists o :: o in r.outputs && !IsHexKey(o.receiver)
  }

  predicate Misshapen(r: Request) {
    match r
    case ProcessTx(_, _, _, _, _, _, _, _) => MisshapenTransfer(r)
    case MintToken(_, currency, key, _) => !Allowed(currency) || !IsHexKey(key)
    case BurnTokens(ids, _, owner, _, signature, _) => !(1 <= |ids| <= 100) || !IsHexKey(owner) || !IsHexSignature(signature)
  }

  predicate Unsigned(cfg: Config, r: Request)
    requires !r.MintToken?
  {
    if r.ProcessTx? then
      !(AllHex(r.signer, 64) && AllHex(r.signature, 128) && cfg.verify(r.signer,
        SignedText(Transfer(r.transactionId, r.network, r.currency, r.inputs, r.outputs, r.signer, r.signedAt)), r.signature))
    else
      !(AllHex(r.owner, 64) && AllHex(r.signature, 128) && cfg.verify(r.owner,
        SignedText(Burn(r.tokenIds, r.network, r.owner, r.signedAt)), r.signature))
  }

  function Wanted(r: Request): seq<string> {
    match r
    case ProcessTx(_, _, _, inputs, _, _, _, _) => inputs
    case MintToken(_, _, _, _) => []
    case BurnTokens(ids, _, _, _, _, _) => ids
  }

  /** Ids that would be new rows. */
  predicate Brings(r: Request, id: string) {
    match r
    case ProcessTx(_, _, _, _, outs, _, _, _) => exists o :: o in outs && o.tokenId == id
    case MintToken(_, _, _, tokenId) => id == tokenId
    case BurnTokens(_, _, _, _, _, _) => false
  }

  function Holder(r: Request): string {
    match r
    case ProcessTx(_, _, _, _, _, signer, _, _) => signer
    case MintToken(_, _, _, _) => ""
    case BurnTokens(_, _, owner, _, _, _) => owner
  }

  predicate There(s: Tables, id: string) {
    id in s.utxos && s.utxos[id].status == Unspent
  }

  predicate InCurrency(s: Tables, r: Request, id: string)
    requires There(s, id)
  {
    r.ProcessTx? ==> s.utxos[id].currency == r.currency
  }

  /** What is wrong with one token; each reason presupposes that the ones before it do not apply. */
  predicate TokenWrong(s: Tables, r: Request, id: string, reason: Reason) {
    match reason
    case NotAvailable => !There(s, id)
    case CurrencyMismatch => There(s, id) && !InCurrency(s, r, id)
    case OwnershipError => There(s, id) && InCurrency(s, r, id) && s.utxos[id].owner != Holder(r)
    case _ => false
  }

  predicate TokenRight(s: Tables, r: Request, id: string) {
    There(s, id) && InCurrency(s, r, id) && s.utxos[id].owner == Holder(r)
  }

  /** The first token in request order that is not right is wrong for this reason. */
  predicate FirstWrong(s: Tables, r: Request, i: int, reason: Reason) {
    && 0 <= i < |Wanted(r)| && TokenWrong(s, r, Wanted(r)[i], reason)
    && forall j :: 0 <= j < i ==> TokenRight(s, r, Wanted(r)[j])
  }

  /** What is wrong when a request is refused for a reason. */
  ghost predicate Means(cfg: Config, s: Tables, key: string, r: Request, now: int, reason: Reason) {
    match reason
    case TooManyDigits => (r.ProcessTx? && exists o :: o in r.outputs && o.amount >= LIMIT) || (r.MintToken? && r.amount >= LIMIT)
    case BadShape => Misshapen(r)
    case BadKey => !UsableKey(cfg, key)
    case WrongNetwork => !r.MintToken? && r.network != cfg.network
    case OutOfWindow => !r.MintToken? && !(-60 <= now - r.signedAt <= 60)
    case DuplicateIds => !NoDup(Wanted(r)) || (r.ProcessTx? && !NoDup(OutIds(r.outputs)))
    case BadSignature => !r.MintToken? && Unsigned(cfg, r)
    case KeyInFlight => false
    case NotAvailable => exists i :: FirstWrong(s, r, i, NotAvailable)
    case CurrencyMismatch => exists i :: FirstWrong(s, r, i, CurrencyMismatch)
    case OwnershipError => exists i :: FirstWrong(s, r, i, OwnershipError)
    case ConservationFailed =>
      r.ProcessTx? && (forall id :: id in r.inputs ==> id in s.utxos)
      && DecSum(Amounts(s.utxos, r.inputs)) != DecSum(OutAmounts(r.outputs))
    case IntegrityError => (exists id :: Brings(r, id) && id in s.utxos) || Recorded(s, TxIdOf(r))
  }

  /** The order of the checks; the three about one token stand together. */
  function Rank(reason: Reason): nat {
    match reason
    case TooManyDigits => 0
    case BadShape => 1
    case BadKey => 2
    case WrongNetwork => 3
    case OutOfWindow => 4
    case DuplicateIds => 5
    case BadSignature => 6
    case KeyInFlight => 7
    case NotAvailable => 8
    case CurrencyMismatch => 8
    case OwnershipError => 8
    case ConservationFailed => 9
    case IntegrityError => 10
  }

  function StatusCode(reason: Reason): nat {
    match reason
    case BadShape => 422
    case KeyInFlight => 409
    case TooManyDigits => 500
    case IntegrityError => 500
    case _ => 400
  }

  /** Of the reasons from a rank on, this one applies and none before it does. */
  ghost predicate FirstFrom(low: nat, cfg: Config, s: Tables, key: string, r: Request, now: int, reason: Reason) {
    && Rank(reason) >= low && Means(cfg, s, key, r, now, reason)
    && forall q: Reason :: low <= Rank(q) < Rank(reason) ==> !Means(cfg, s, key, r, now, q)
  }

  lemma {:induction false} FirstBadIs(t: Utxos, ids: seq<string>, currency: Option<string>, owner: string) returns (i: int)
    requires FirstBad(t, ids, currency, owner).Some?
    ensures 0 <= i < |ids| && Verdict(t, ids[i], currency, owner) == FirstBad(t, ids, currency, owner)
    ensures forall j :: 0 <= j < i ==> Verdict(t, ids[j], currency, owner).None?
  {
    i := 0;
    if Verdict(t, ids[0], currency, owner).None? {
      var k := FirstBadIs(t, ids[1..], currency, owner);
      i := k + 1;
      forall j | 0 <= j < i ensures Verdict(t, ids[j], currency, owner).None? {
        if j > 0 {
          assert ids[1..][j - 1] == ids[j];
        }
      }
    }
  }

  lemma VerdictMeans(s: Tables, r: Request, id: string)
    requires !r.MintToken?
    ensures var v := Verdict(s.utxos, id, if r.ProcessTx? then Some(r.currency) else None, Holder(r));
            if v.Some? then TokenWrong(s, r, id, v.value) && Rank(v.value) == 8 else TokenRight(s, r, id)
  {
  }

  lemma TokensMean(cfg: Config, s: Tables, key: string, r: Request, now: int)
    requires !r.MintToken?
    ensures var bad := FirstBad(s.utxos, Wanted(r), if r.ProcessTx? then Some(r.currency) else None, Holder(r));
            if bad.Some? then Means(cfg, s, key, r, now, bad.value) && Rank(bad.value) == 8
            else forall i :: 0 <= i < |Wanted(r)| ==> TokenRight(s, r, Wanted(r)[i])
  {
    var currency := if r.ProcessTx? then Some(r.currency) else None;
    var bad := FirstBad(s.utxos, Wanted(r), currency, Holder(r));
    forall i | 0 <= i < |Wanted(r)|
      ensures var v := Verdict(s.utxos, Wanted(r)[i], currency, Holder(r));
              if v.Some? then TokenWrong(s, r, Wanted(r)[i], v.value) && Rank(v.value) == 8 else TokenRight(s, r, Wanted(r)[i])
    {
      VerdictMeans(s, r, Wanted(r)[i]);
    }
    if bad.Some? {
      var i := FirstBadIs(s.utxos, Wanted(r), currency, Holder(r));
      assert FirstWrong(s, r, i, bad.value);
    } else {
      forall i | 0 <= i < |Wanted(r)| ensures TokenRight(s, r, Wanted(r)[i]) {
        assert Wanted(r)[i] in Wanted(r) && Takable(s.utxos, Wanted(r)[i], currency, Holder(r));
      }
    }
  }

  lemma DigitsMean(r: Request)
    ensures !DigitsOk(r) <==> (r.ProcessTx? && exists o :: o in r.outputs && o.amount >= LIMIT) || (r.MintToken? && r.amount >= LIMIT)
  {
    if r.ProcessTx? && !DigitsOk(r) {
      var i :| 0 <= i < |r.outputs| && r.outputs[i].amount >= LIMIT;
      assert r.outputs[i] in r.outputs;
    }
  }

  lemma ShapeMeans(r: Request)
    ensures !WellShaped(r) <==> Misshapen(r)
  {
    if r.ProcessTx? && exists i :: 0 <= i < |r.outputs| && !IsHexKey(r.outputs[i].receiver) {
      var i :| 0 <= i < |r.outputs| && !IsHexKey(r.outputs[i].receiver);
      assert r.outputs[i] in r.outputs;
    }
  }

  /** The checks before the transaction name the first of their seven conditions that holds. */
  lemma PreCheckMeans(cfg: Config, s: Tables, key: string, r: Request, now: int)
    ensures var bad := PreCheck(cfg, key, r, now);
            && (bad.Some? ==> Rank(bad.value) < 7 && Means(cfg, s, key, r, now, bad.value))
            && forall q: Reason :: Rank(q) < 7 && (bad.Some? ==> Rank(q) < Rank(bad.value)) ==> !Means(cfg, s, key, r, now, q)
  {
    DigitsMean(r);
    ShapeMeans(r);
  }

  lemma TransferMeans(cfg: Config, s: Tables, key: string, r: Request, now: int)
    requires r.ProcessTx?
    ensures Objection(s, r).Some? ==> FirstFrom(8, cfg, s, key, r, now, Objection(s, r).value)
  {
    TokensMean(cfg, s, key, r, now);
    RecordedIff(s, r.transactionId);
    NewIds(s.utxos, r.outputs);
  }

  lemma ObjectionMeans(cfg: Config, s: Tables, key: string, r: Request, now: int)
    ensures Objection(s, r).Some? ==> FirstFrom(8, cfg, s, key, r, now, Objection(s, r).value)
  {
    match r
    case ProcessTx(_, _, _, _, _, _, _, _) => TransferMeans(cfg, s, key, r, now);
    case MintToken(_, _, _, id) => RecordedIff(s, id);
    case BurnTokens(_, _, _, _, _, auditId) =>
      RecordedIff(s, auditId);
      TokensMean(cfg, s, key, r, now);
  }

  lemma EarlyRefusal(cfg: Config, s: Tables, key: string, r: Request, now: int)
    requires PreCheck(cfg, key, r, now).Some?
    ensures FirstFrom(0, cfg, s, key, r, now, PreCheck(cfg, key, r, now).value)
  {
    PreCheckMeans(cfg, s, key, r, now);
  }

  lemma LateRefusal(cfg: Config, s: Tables, key: string, r: Request, now: int, reason: Reason)
    requires PreCheck(cfg, key, r, now).None? && FirstFrom(8, cfg, s, key, r, now, reason)
    ensures FirstFrom(0, cfg, s, key, r, now, reason)
  {
    PreCheckMeans(cfg, s, key, r, now);
    forall q: Reason | Rank(q) < Rank(reason) ensures !Means(cfg, s, key, r, now, q) {
      assert Rank(q) == 7 ==> q.KeyInFlight?;
    }
  }

  lemma RefusalStatus(reason: Reason)
    ensures Refuse(reason) == Response(StatusCode(reason), Detail(reason)) && StatusCode(reason) != 200
  {
  }

  /** Every refusal names the first thing that is wrong in the order of the checks, under its own status code;
      409 is never among them. */
  lemma {:induction false} RefusalMeans(cfg: Config, es: seq<Event>, client: string, key: string, r: Request, now: int)
    requires Answer(cfg, es, client, key, r, now).status != 200
    ensures var s, a := Run(cfg, es), Answer(cfg, es, client, key, r, now);
            a.body.Detail? && a.status == StatusCode(a.body.reason) && FirstFrom(0, cfg, s, key, r, now, a.body.reason)
  {
    var s := Run(cfg, es);
    if PreCheck(cfg, key, r, now).Some? {
      EarlyRefusal(cfg, s, key, r, now);
      RefusalStatus(PreCheck(cfg, key, r, now).value);
    } else {
      AnsweredIff(cfg, es, client, key, r, now);
      PreCheckIff(cfg, key, r, now);
      ObjectionMeans(cfg, s, key, r, now);
      LateRefusal(cfg, s, key, r, now, Objection(s, r).value);
      RefusalStatus(Objection(s, r).value);
    }
  }
}
