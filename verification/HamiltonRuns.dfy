/** What every run of Hamilton Core keeps, restarts included. */
module HamiltonRuns {
  import opened Prelude
  import opened Decimal
  import opened AuditLog
  import opened AuditValue
  import opened AuditChain
  import opened HamiltonCore
  import opened Signing
  import opened Syntax
  import Json

  datatype Event = Handled(client: string, key: string, r: Request, now: int) | Restart(now: int)

  const EMPTY := Tables(map[], [], map[])

  function Step(cfg: Config, s: Tables, e: Event): Tables {
    match e
    case Handled(client, key, r, now) => Handle(cfg, s, client, key, r, now).0
    case Restart(now) => Restarted(s, now)
  }

  /** The committed tables after a sequence of requests and restarts. */
  function Run(cfg: Config, es: seq<Event>): Tables {
    if es == [] then EMPTY else Step(cfg, Run(cfg, es[..|es| - 1]), es[|es| - 1])
  }

  predicate Takes(cfg: Config, s: Tables, e: Event) {
    && e.Handled? && (e.client, e.key) !in s.idem
    && PreCheck(cfg, e.key, e.r, e.now).None? && Objection(s, e.r).None?
  }

  datatype Execution = Execution(k: Key, txId: string, response: Response)

  /** What an event executes in a state: one request, or nothing. */
  function NowExecuted(cfg: Config, s: Tables, e: Event): seq<Execution> {
    if Takes(cfg, s, e) then [Execution((e.client, e.key), TxIdOf(e.r), Response(200, BodyOf(e.r)))] else []
  }

  /** The requests of a run that took effect, in order. */
  function Executed(cfg: Config, es: seq<Event>): seq<Execution> {
    if es == [] then [] else
      var front := es[..|es| - 1];
      Executed(cfg, front) + NowExecuted(cfg, Run(cfg, front), es[|es| - 1])
  }

  /** Executions, audit rows and idempotency rows correspond one to one. */
  ghost predicate Matched(s: Tables, done: seq<Execution>) {
    && |done| == |s.audit|
    && (forall i :: 0 <= i < |done| ==> s.audit[i].txId == done[i].txId)
    && (forall i, j :: 0 <= i < j < |done| ==> done[i].k != done[j].k)
    && (forall k :: k in s.idem <==> exists i :: 0 <= i < |done| && done[i].k == k)
    && (forall i :: 0 <= i < |done| ==> s.idem[done[i].k].Complete? && s.idem[done[i].k].response == done[i].response)
  }

  ghost predicate Inv(cfg: Config, s: Tables, done: seq<Execution>) {
    s.utxos == Replay(s.audit) && LegalLog(s.audit) && WellChained(cfg.hash, s.audit) && Matched(s, done)
  }

  lemma UnobjectedIsLegal(cfg: Config, s: Tables, key: string, r: Request, now: int)
    requires PreCheck(cfg, key, r, now).None? && Objection(s, r).None?
    ensures EntryOk(s.utxos, TxIdOf(r), PayloadOf(r)) && TxIdOf(r) !in TxIds(s.audit)
  {
    match r
    case ProcessTx(_, _, currency, inputs, _, signer, _, _) =>
      assert forall id :: id in inputs ==> Takable(s.utxos, id, Some(currency), signer);
    case MintToken(_, _, _, _) =>
    case BurnTokens(ids, _, owner, _, _, _) =>
      assert forall id :: id in ids ==> Takable(s.utxos, id, None, owner);
  }

  lemma MatchedGrows(s: Tables, done: seq<Execution>, row: AuditRow, utxos: Utxos, x: Execution, now: int)
    requires Matched(s, done) && x.k !in s.idem && row.txId == x.txId
    ensures Matched(Tables(utxos, s.audit + [row], s.idem[x.k := Complete(x.response, now)]), done + [x])
  {
    var s' := Tables(utxos, s.audit + [row], s.idem[x.k := Complete(x.response, now)]);
    var done' := done + [x];
    forall k ensures k in s'.idem <==> exists i :: 0 <= i < |done'| && done'[i].k == k {
      if k == x.k {
        assert done'[|done|].k == k;
      } else if k in s.idem {
        var i :| 0 <= i < |done| && done[i].k == k;
        assert done'[i].k == k;
      }
    }
  }

  lemma RestartChangesNothing(cfg: Config, s: Tables, done: seq<Execution>, now: int)
    requires Inv(cfg, s, done)
    ensures Restarted(s, now) == s
  {
    forall k | k in s.idem ensures s.idem[k].Complete? {
      var i :| 0 <= i < |done| && done[i].k == k;
    }
  }

  lemma TakingStep(cfg: Config, s: Tables, done: seq<Execution>, e: Event)
    requires Inv(cfg, s, done) && Takes(cfg, s, e)
    ensures Inv(cfg, Step(cfg, s, e), done + [Execution((e.client, e.key), TxIdOf(e.r), Response(200, BodyOf(e.r)))])
  {
    var row := NewRow(cfg.hash, s.audit, TxIdOf(e.r), PayloadOf(e.r));
    UnobjectedIsLegal(cfg, s, e.key, e.r, e.now);
    LegalAppend(s.audit, row);
    assert (s.audit + [row])[..|s.audit|] == s.audit;
    MatchedGrows(s, done, row, Apply(s.utxos, TxIdOf(e.r), PayloadOf(e.r)),
                 Execution((e.client, e.key), TxIdOf(e.r), Response(200, BodyOf(e.r))), e.now);
  }

  lemma RefusedStep(cfg: Config, s: Tables, e: Event)
    requires e.Handled? && !Takes(cfg, s, e)
    ensures Step(cfg, s, e) == s
  {
  }

  lemma StepKeepsInv(cfg: Config, s: Tables, done: seq<Execution>, e: Event)
    requires Inv(cfg, s, done)
    ensures Inv(cfg, Step(cfg, s, e), done + NowExecuted(cfg, s, e))
  {
    if Takes(cfg, s, e) {
      TakingStep(cfg, s, done, e);
    } else {
      assert done + [] == done;
      if e.Handled? {
        RefusedStep(cfg, s, e);
      } else {
        RestartChangesNothing(cfg, s, done, e.now);
      }
    }
  }

  /** The invariant of every run: table = replay of the log, log legal and chained, rows in bijection. */
  lemma {:induction false} RunInvariant(cfg: Config, es: seq<Event>)
    ensures Inv(cfg, Run(cfg, es), Executed(cfg, es))
  {
    if es != [] {
      var front := es[..|es| - 1];
      RunInvariant(cfg, front);
      StepKeepsInv(cfg, Run(cfg, front), Executed(cfg, front), es[|es| - 1]);
    }
  }

  // ---------- consequences ----------

  /** The audit log alone rebuilds the token table. */
  lemma {:induction false} LogDeterminesTable(cfg: Config, es: seq<Event>)
    ensures Run(cfg, es).utxos == Replay(Run(cfg, es).audit)
  {
    RunInvariant(cfg, es);
  }

  /** Committed states hold no PENDING row, so 409 is never answered and a restart deletes nothing. */
  lemma {:induction false} NothingPending(cfg: Config, es: seq<Event>, now: int)
    ensures var s := Run(cfg, es); (forall k :: k in s.idem ==> s.idem[k].Complete?) && Restarted(s, now) == s
  {
    RunInvariant(cfg, es);
    RestartChangesNothing(cfg, Run(cfg, es), Executed(cfg, es), now);
    forall k | k in Run(cfg, es).idem ensures Run(cfg, es).idem[k].Complete? {
      var i :| 0 <= i < |Executed(cfg, es)| && Executed(cfg, es)[i].k == k;
    }
  }

  lemma {:induction false} ExecutedGrows(cfg: Config, es: seq<Event>, more: seq<Event>)
    ensures Executed(cfg, es) <= Executed(cfg, es + more)
  {
    if more == [] {
      assert es + more == es;
    } else {
      ExecutedGrows(cfg, es, more[..|more| - 1]);
      assert (es + more)[..|es + more| - 1] == es + more[..|more| - 1];
    }
  }

  /** Exactly once: whatever happens after a request took effect, a repeat of its (client, key), even with another
      body, is answered with the stored response and changes nothing. */
  lemma {:induction false} RepeatIsReplayed(cfg: Config, es: seq<Event>, more: seq<Event>, i: nat, r: Request, now: int)
    requires i < |Executed(cfg, es)|
    ensures var x, s := Executed(cfg, es)[i], Run(cfg, es + more);
            PreCheck(cfg, x.k.1, r, now).None? ==> Handle(cfg, s, x.k.0, x.k.1, r, now) == (s, x.response)
  {
    RunInvariant(cfg, es + more);
    ExecutedGrows(cfg, es, more);
    assert Executed(cfg, es + more)[i] == Executed(cfg, es)[i];
  }

  /** A tx_id, and so a TRANSFER's transaction_id, takes effect at most once, under any keys. */
  lemma {:induction false} TxIdOnce(cfg: Config, es: seq<Event>, i: nat, j: nat)
    requires i < j < |Executed(cfg, es)|
    ensures Executed(cfg, es)[i].txId != Executed(cfg, es)[j].txId
  {
    RunInvariant(cfg, es);
    var log := Run(cfg, es).audit;
    LegalIdsDistinct(log);
    assert TxIds(log)[i] == log[i].txId && TxIds(log)[j] == log[j].txId;
  }

  /** Following a token back ends at mints, all of its own currency. */
  ghost predicate RootedInMints(s: Tables, id: string)
    requires LegalLog(s.audit) && id in Replay(s.audit) && id in s.utxos
  {
    var roots := Roots(s.audit, Creator(s.audit, id));
    && roots != {}
    && (forall r :: r in roots ==> s.audit[r].payload.Mint? && s.audit[r].payload.currency == s.utxos[id].currency)
  }

  /** Every token has one creating entry, at most one later consuming entry, and mints at the root of its history. */
  lemma {:induction false} TokensTraceToMints(cfg: Config, es: seq<Event>, id: string)
    ensures var log := Run(cfg, es).audit; LegalLog(log) && Traced(log, id)
    ensures var s := Run(cfg, es); id in s.utxos ==> id in Replay(s.audit) && RootedInMints(s, id)
  {
    RunInvariant(cfg, es);
    var s := Run(cfg, es);
    Provenance(s.audit, id);
    if id in s.utxos {
      CreatorCurrency(s.audit, id);
      forall r | r in Roots(s.audit, Creator(s.audit, id))
        ensures s.audit[r].payload.Mint? && s.audit[r].payload.currency == s.utxos[id].currency
      {
        RootsKeepCurrency(s.audit, Creator(s.audit, id), r);
      }
    }
  }

  /** Two runs whose chain heads agree recorded the same payloads, and have the same table exactly when
      their MINT rows carry the same ids. */
  lemma {:induction false} EqualHeadsEqualRuns(cfg: Config, es: seq<Event>, fs: seq<Event>)
    requires var a, b := Run(cfg, es).audit, Run(cfg, fs).audit;
      HexDigests(cfg.hash) && NoCollision(cfg.hash, Hashed(a) + Hashed(b)) && LastHash(a) == LastHash(b)
    ensures var a, b := Run(cfg, es), Run(cfg, fs);
            && Payloads(a.audit) == Payloads(b.audit)
            && (a.utxos == b.utxos <==> MintRows(a.audit) == MintRows(b.audit))
  {
    RunInvariant(cfg, es);
    RunInvariant(cfg, fs);
    HeadBindsTableIff(cfg.hash, Run(cfg, es).audit, Run(cfg, fs).audit);
  }

  // ---------- exactly which logs are reachable ----------

  /** What the request checks, and uuid4, alone guarantee about an entry. */
  ghost predicate Admissible(cfg: Config, txId: string, p: Payload) {
    match p
    case Mint(amount, currency, key) => currency in ALLOWED_CURRENCIES && amount < LIMIT && IsHexKey(key) && IsUuid4(txId)
    case Transfer(id, network, currency, inputs, outs, _, _) =>
      && id == txId && network == cfg.network && currency in ALLOWED_CURRENCIES && Signable(cfg.verify, p)
      && 1 <= |inputs| <= MAX_UTXO_LIST && 1 <= |outs| <= MAX_UTXO_LIST
      && forall i :: 0 <= i < |outs| ==> outs[i].amount < LIMIT && IsHexKey(outs[i].receiver)
    case Burn(ids, network, _, _) =>
      network == cfg.network && 1 <= |ids| <= MAX_UTXO_LIST && Signable(cfg.verify, p) && IsUuid4(txId)
  }

  ghost predicate AllAdmissible(cfg: Config, log: seq<AuditRow>) {
    forall i :: 0 <= i < |log| ==> Admissible(cfg, log[i].txId, log[i].payload)
  }

  ghost predicate Genuine(cfg: Config, log: seq<AuditRow>) {
    LegalLog(log) && WellChained(cfg.hash, log) && AllAdmissible(cfg, log)
  }

  ghost function SignatureFor(cfg: Config, p: Payload): (signature: string)
    requires !p.Mint? && Signable(cfg.verify, p)
    ensures Accepts(cfg.verify, p, signature) && IsHexSignature(signature) && IsHexKey(Signer(p))
  {
    var signature :| Accepts(cfg.verify, p, signature);
    HexPairs(signature);
    HexPairs(Signer(p));
    signature
  }

  /** A request that records the given entry. */
  ghost function RequestFor(cfg: Config, row: AuditRow): Request
    requires Admissible(cfg, row.txId, row.payload)
  {
    match row.payload
    case Mint(amount, currency, key) => MintToken(amount, currency, key, row.txId)
    case Transfer(id, network, currency, inputs, outs, signer, at) =>
      ProcessTx(id, network, currency, inputs, outs, signer, at, SignatureFor(cfg, row.payload))
    case Burn(ids, network, owner, at) =>
      BurnTokens(ids, network, owner, at, SignatureFor(cfg, row.payload), row.txId)
  }

  ghost function EventFor(cfg: Config, row: AuditRow, k: Key): Event
    requires Admissible(cfg, row.txId, row.payload)
  {
    Handled(k.0, k.1, RequestFor(cfg, row), if row.payload.Mint? then 0 else row.payload.signedAt)
  }

  ghost function EventsFor(cfg: Config, log: seq<AuditRow>, ks: seq<Key>): seq<Event>
    requires AllAdmissible(cfg, log) && |ks| == |log|
  {
    seq(|log|, i requires 0 <= i < |log| => assert Admissible(cfg, log[i].txId, log[i].payload); EventFor(cfg, log[i], ks[i]))
  }

  /** Distinct (client, key) pairs the service takes. */
  predicate Usable(cfg: Config, ks: seq<Key>) {
    NoDup(ks) && forall i :: 0 <= i < |ks| ==> KeyOk(cfg, ks[i].1)
  }

  lemma RequestPasses(cfg: Config, t: Utxos, row: AuditRow, k: Key)
    requires Admissible(cfg, row.txId, row.payload) && EntryOk(t, row.txId, row.payload) && KeyOk(cfg, k.1)
    ensures var e := EventFor(cfg, row, k);
            PreCheck(cfg, e.key, e.r, e.now).None? && TxIdOf(e.r) == row.txId && PayloadOf(e.r) == row.payload
  {
  }

  lemma RequestUnobjected(cfg: Config, s: Tables, row: AuditRow, k: Key)
    requires Admissible(cfg, row.txId, row.payload)
    requires EntryOk(s.utxos, row.txId, row.payload) && row.txId !in TxIds(s.audit)
    ensures Objection(s, EventFor(cfg, row, k).r).None?
  {
    match row.payload
    case Mint(_, _, _) =>
    case Transfer(_, _, currency, inputs, _, signer, _) =>
      assert forall id :: id in inputs ==> Takable(s.utxos, id, Some(currency), signer);
    case Burn(ids, _, owner, _) =>
      assert forall id :: id in ids ==> Takable(s.utxos, id, None, owner);
  }

  lemma ExtendGenuine(cfg: Config, log: seq<AuditRow>, row: AuditRow)
    requires Genuine(cfg, log + [row])
    ensures Admissible(cfg, row.txId, row.payload) && EntryOk(Replay(log), row.txId, row.payload) && row.txId !in TxIds(log)
    ensures row == NewRow(cfg.hash, log, row.txId, row.payload)
  {
    var all := log + [row];
    assert all[|log|] == row && all[..|log|] == log;
    LegalAppend(log, row);
  }

  lemma RowTaken(cfg: Config, s: Tables, row: AuditRow, k: Key)
    requires Admissible(cfg, row.txId, row.payload) && KeyOk(cfg, k.1) && k !in s.idem
    requires EntryOk(s.utxos, row.txId, row.payload) && row.txId !in TxIds(s.audit)
    ensures var e := EventFor(cfg, row, k);
            && Takes(cfg, s, e) && Step(cfg, s, e) == Committed(cfg, s, k, e.r, e.now)
            && TxIdOf(e.r) == row.txId && PayloadOf(e.r) == row.payload
  {
    RequestPasses(cfg, s.utxos, row, k);
    RequestUnobjected(cfg, s, row, k);
  }

  lemma ReachOneMore(cfg: Config, s: Tables, row: AuditRow, k: Key)
    requires s.utxos == Replay(s.audit) && Genuine(cfg, s.audit + [row]) && KeyOk(cfg, k.1) && k !in s.idem
    ensures Admissible(cfg, row.txId, row.payload)
    ensures var s' := Step(cfg, s, EventFor(cfg, row, k)); s'.audit == s.audit + [row] && s'.idem.Keys == s.idem.Keys + {k}
  {
    ExtendGenuine(cfg, s.audit, row);
    RowTaken(cfg, s, row, k);
  }

  lemma EventsFront(cfg: Config, log: seq<AuditRow>, ks: seq<Key>)
    requires AllAdmissible(cfg, log) && |ks| == |log| > 0
    ensures var n := |log| - 1;
            && AllAdmissible(cfg, log[..n]) && Admissible(cfg, log[n].txId, log[n].payload)
            && EventsFor(cfg, log, ks) == EventsFor(cfg, log[..n], ks[..n]) + [EventFor(cfg, log[n], ks[n])]
  {
    var n := |log| - 1;
    assert AllAdmissible(cfg, log[..n]);
    assert Admissible(cfg, log[n].txId, log[n].payload);
  }

  lemma LastKeyFresh(ks: seq<Key>)
    requires NoDup(ks) && ks != []
    ensures var n := |ks| - 1; ks[n] !in Elems(ks[..n]) && Elems(ks[..n]) + {ks[n]} == Elems(ks)
  {
    assert ks == ks[..|ks| - 1] + [ks[|ks| - 1]];
  }

  lemma GenuineFront(cfg: Config, log: seq<AuditRow>)
    requires Genuine(cfg, log) && log != []
    ensures Genuine(cfg, log[..|log| - 1]) && log == log[..|log| - 1] + [log[|log| - 1]]
  {
  }

  lemma ReachLast(cfg: Config, es: seq<Event>, front: seq<AuditRow>, row: AuditRow, done: set<Key>, k: Key)
    requires Genuine(cfg, front + [row]) && KeyOk(cfg, k.1) && k !in done
    requires Run(cfg, es).audit == front && Run(cfg, es).idem.Keys == done
    ensures Admissible(cfg, row.txId, row.payload)
    ensures var s := Run(cfg, es + [EventFor(cfg, row, k)]); s.audit == front + [row] && s.idem.Keys == done + {k}
  {
    LogDeterminesTable(cfg, es);
    ReachOneMore(cfg, Run(cfg, es), row, k);
    RunOneMore(cfg, es, EventFor(cfg, row, k));
  }

  lemma {:induction false} GenuineIsReached(cfg: Config, log: seq<AuditRow>, ks: seq<Key>)
    requires Genuine(cfg, log) && |ks| == |log| && Usable(cfg, ks)
    ensures var s := Run(cfg, EventsFor(cfg, log, ks)); s.audit == log && s.idem.Keys == Elems(ks)
  {
    if log != [] {
      var n := |log| - 1;
      GenuineFront(cfg, log);
      EventsFront(cfg, log, ks);
      GenuineIsReached(cfg, log[..n], ks[..n]);
      LastKeyFresh(ks);
      ReachLast(cfg, EventsFor(cfg, log[..n], ks[..n]), log[..n], log[n], Elems(ks[..n]), ks[n]);
    }
  }

  lemma RunOneMore(cfg: Config, es: seq<Event>, e: Event)
    ensures Run(cfg, es + [e]) == Step(cfg, Run(cfg, es), e)
  {
    assert (es + [e])[..|es|] == es;
  }

  function ManyClients(n: nat): seq<Key> {
    seq(n, i requires 0 <= i < n => (Json.NatText(i), NthUuid(0)))
  }

  lemma ManyClientsUsable(cfg: Config, n: nat)
    ensures Usable(cfg, ManyClients(n))
  {
    forall i, j | 0 <= i < j < n ensures Json.NatText(i) != Json.NatText(j) {
      Json.ParseNatOfText(i);
      Json.ParseNatOfText(j);
    }
  }

  lemma TakenIsAdmissible(cfg: Config, s: Tables, e: Event)
    requires Takes(cfg, s, e)
    ensures Admissible(cfg, TxIdOf(e.r), PayloadOf(e.r))
  {
  }

  lemma {:induction false} ReachedIsAdmissible(cfg: Config, es: seq<Event>)
    ensures AllAdmissible(cfg, Run(cfg, es).audit)
  {
    if es != [] {
      var s, e := Run(cfg, es[..|es| - 1]), es[|es| - 1];
      ReachedIsAdmissible(cfg, es[..|es| - 1]);
      if Takes(cfg, s, e) {
        TakenIsAdmissible(cfg, s, e);
      } else {
        assert Step(cfg, s, e).audit == s.audit;
      }
    }
  }

  /** A log is some run's audit log if and only if it is legal, chained and within the request checks,
      signatures included. */
  lemma ReachableIffGenuine(cfg: Config, log: seq<AuditRow>)
    ensures (exists es :: Run(cfg, es).audit == log) <==> Genuine(cfg, log)
  {
    if Genuine(cfg, log) {
      ManyClientsUsable(cfg, |log|);
      GenuineIsReached(cfg, log, ManyClients(|log|));
    }
    if es :| Run(cfg, es).audit == log {
      RunInvariant(cfg, es);
      ReachedIsAdmissible(cfg, es);
    }
  }

  const ISSUER := "liquidity-bridge"
  const PROCESSOR := "wallet-service"

  /** The two clients the service registers, each with the requests its role allows. */
  predicate InRole(e: Event) {
    e.Handled? && match e.r
      case MintToken(_, _, _, _) => e.client == ISSUER
      case ProcessTx(_, _, _, _, _, _, _, _) => e.client == PROCESSOR
      case BurnTokens(_, _, _, _, _, _) => e.client == ISSUER || e.client == PROCESSOR
  }

  function RoleKeys(log: seq<AuditRow>): seq<Key> {
    seq(|log|, i requires 0 <= i < |log| => (if log[i].payload.Mint? then ISSUER else PROCESSOR, NthUuid(i)))
  }

  lemma RoleKeysUsable(cfg: Config, log: seq<AuditRow>)
    requires |log| <= HexCount(32)
    ensures Usable(cfg, RoleKeys(log))
  {
    forall i, j | 0 <= i < j < |log| ensures NthUuid(i) != NthUuid(j) {
      if NthUuid(i) == NthUuid(j) {
        NthUuidInjective(i, j);
      }
    }
  }

  lemma RoleEvents(cfg: Config, log: seq<AuditRow>)
    requires AllAdmissible(cfg, log)
    ensures forall i :: 0 <= i < |log| ==> InRole(EventsFor(cfg, log, RoleKeys(log))[i])
  {
    forall i | 0 <= i < |log| ensures InRole(EventsFor(cfg, log, RoleKeys(log))[i]) {
      assert Admissible(cfg, log[i].txId, log[i].payload);
      assert EventsFor(cfg, log, RoleKeys(log))[i] == EventFor(cfg, log[i], RoleKeys(log)[i]);
    }
  }

  /** The two registered clients alone reach every genuine log, as long as plain UUIDs are left for its keys. */
  lemma ReachedInRole(cfg: Config, log: seq<AuditRow>)
    requires Genuine(cfg, log) && |log| <= HexCount(32)
    ensures exists es :: Run(cfg, es).audit == log && forall i :: 0 <= i < |es| ==> InRole(es[i])
  {
    RoleKeysUsable(cfg, log);
    GenuineIsReached(cfg, log, RoleKeys(log));
    RoleEvents(cfg, log);
  }

  // ---------- authorisation ----------

  /** In every run, whatever consumed tokens was signed by their owner: each was unspent and held by the signer of
      the recorded payload, for which some signature verifies. */
  lemma {:induction false} ConsumptionIsSigned(cfg: Config, es: seq<Event>, i: nat)
    requires i < |Run(cfg, es).audit| && !Run(cfg, es).audit[i].payload.Mint?
    ensures var log := Run(cfg, es).audit; var p := log[i].payload;
            && Signable(cfg.verify, p)
            && (forall id :: id in Consumed(p) ==> Held(Replay(log[..i]), id, Signer(p)) && id in Replay(log) && Replay(log)[id].owner == Signer(p))
  {
    RunInvariant(cfg, es);
    ReachedIsAdmissible(cfg, es);
    var log := Run(cfg, es).audit;
    assert Admissible(cfg, log[i].txId, log[i].payload);
    LegalPrefix(log, i);
    forall id | id in Consumed(log[i].payload) ensures id in Replay(log) && Replay(log)[id].owner == Signer(log[i].payload) {
      assert Held(Replay(log[..i]), id, Signer(log[i].payload));
      OwnerKept(log, i, id);
    }
  }

  /** A token keeps its owner. */
  lemma OwnerKept(log: seq<AuditRow>, n: nat, id: string)
    requires LegalLog(log) && n <= |log| && LegalLog(log[..n]) && id in Replay(log[..n])
    ensures id in Replay(log) && Replay(log)[id].owner == Replay(log[..n])[id].owner
  {
    CreatorInPrefix(log, n, id);
    var i := Creator(log, id);
    Provenance(log, id);
    Provenance(log[..n], id);
    assert RowTraced(log, i, id, Replay(log)[id]) && RowTraced(log[..n], i, id, Replay(log[..n])[id]);
  }

  // ---------- conservation ----------

  function Rechained(hash: Hash, log: seq<AuditRow>): seq<AuditRow> {
    if log == [] then [] else
      var front, e := Rechained(hash, log[..|log| - 1]), log[|log| - 1];
      front + [NewRow(hash, front, e.txId, e.payload)]
  }

  ghost predicate SameEntries(a: seq<AuditRow>, b: seq<AuditRow>) {
    |a| == |b| && forall i :: 0 <= i < |a| ==> a[i].txId == b[i].txId && a[i].payload == b[i].payload
  }

  lemma {:induction false} RechainedSame(hash: Hash, log: seq<AuditRow>)
    ensures SameEntries(Rechained(hash, log), log) && WellChained(hash, Rechained(hash, log))
  {
    if log != [] {
      var n := |log| - 1;
      RechainedSame(hash, log[..n]);
      var front := Rechained(hash, log[..n]);
      assert (front + [NewRow(hash, front, log[n].txId, log[n].payload)])[..n] == front;
    }
  }

  /** The hash columns bear on neither the table nor the totals. */
  lemma {:induction false} SameTable(a: seq<AuditRow>, b: seq<AuditRow>, currency: string)
    requires SameEntries(a, b)
    ensures Replay(a) == Replay(b) && Minted(a, currency) == Minted(b, currency)
  {
    if a != [] {
      var n := |a| - 1;
      SameTable(a[..n], b[..n], currency);
    }
  }

  lemma {:induction false} SameLegality(a: seq<AuditRow>, b: seq<AuditRow>)
    requires SameEntries(a, b) && LegalLog(a)
    ensures LegalLog(b)
  {
    if a != [] {
      var n := |a| - 1;
      SameLegality(a[..n], b[..n]);
      SameTable(a[..n], b[..n], "");
      assert TxIds(a[..n]) == TxIds(b[..n]);
    }
  }

  ghost predicate Receivable(cfg: Config, w: Inflation) {
    && w.Distinct() && w.network == cfg.network && IsHexKey(w.owner) && IsUuid4(w.a) && IsUuid4(w.b)
    && Signable(cfg.verify, w.Overpay().payload)
  }

  lemma InflatingAdmissible(cfg: Config, w: Inflation, log: seq<AuditRow>)
    requires Receivable(cfg, w) && SameEntries(log, w.Log())
    ensures AllAdmissible(cfg, log)
  {
    assert "USD" in ALLOWED_CURRENCIES;
    assert w.Log()[0] == w.First() && w.Log()[1] == w.Second() && w.Log()[2] == w.Overpay();
  }

  lemma InflatingLegal(w: Inflation, log: seq<AuditRow>)
    requires w.Distinct() && SameEntries(w.Log(), log)
    ensures LegalLog(log)
  {
    InflatingLog(w);
    SameLegality(w.Log(), log);
  }

  lemma InflatingValue(w: Inflation, log: seq<AuditRow>)
    requires w.Distinct() && SameEntries(log, w.Log())
    ensures Minted(log, "USD") == LIMIT && !Conserved(log, "USD")
  {
    InflatingLog(w);
    SameTable(log, w.Log(), "USD");
  }

  /** With any two uuid4 ids and any owner whose signature for the transfer verifies, requests can bring that about. */
  lemma InflatingRun(cfg: Config, w: Inflation)
    requires Receivable(cfg, w)
    ensures exists es :: Minted(Run(cfg, es).audit, "USD") == LIMIT && !Conserved(Run(cfg, es).audit, "USD")
  {
    var log := Rechained(cfg.hash, w.Log());
    RechainedSame(cfg.hash, w.Log());
    InflatingLegal(w, log);
    InflatingAdmissible(cfg, w, log);
    InflatingValue(w, log);
    ReachableIffGenuine(cfg, log);
  }

  /** UNSPENT = minted - burned in every run, while the mints of the currency stay below 10^28 cents. */
  lemma {:induction false} RunConservation(cfg: Config, es: seq<Event>, currency: string)
    requires Minted(Run(cfg, es).audit, currency) < LIMIT
    ensures Conserved(Run(cfg, es).audit, currency)
  {
    RunInvariant(cfg, es);
    Conservation(Run(cfg, es).audit, currency);
  }

  /** For every service to which some owner can sign the transfer of two tokens: UNSPENT = minted - burned in every run
      whose mints stay within bound, if and only if bound < 10^28 cents; from there on the 28-digit sums let
      a transfer pay out more than it takes in. */
  lemma RunConservationIff(cfg: Config, w: Inflation, bound: nat)
    requires Receivable(cfg, w)
    ensures (forall es, currency :: Minted(Run(cfg, es).audit, currency) <= bound ==> Conserved(Run(cfg, es).audit, currency))
            <==> bound < LIMIT
  {
    if bound < LIMIT {
      forall es, currency | Minted(Run(cfg, es).audit, currency) <= bound ensures Conserved(Run(cfg, es).audit, currency) {
        RunConservation(cfg, es, currency);
      }
    } else {
      InflatingRun(cfg, w);
    }
  }
}
