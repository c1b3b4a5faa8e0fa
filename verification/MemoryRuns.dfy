/** The in-memory ledger under many threads: every interleaving of its unlocked middle is serial. */
module MemoryRuns {
  import opened Prelude
  import opened Decimal
  import opened TxRules
  import opened Tokens
  import opened Payments
  import opened MemoryLedger

  /** A call between its locked phases: the inputs it read and, once validated, the clock it used. */
  datatype Flight = Flight(tx: Tx, fetched: seq<Utxo>, checkedAt: Option<int>)

  /** The ledger, the calls in flight by thread, every token id ever issued, and all that was applied. */
  datatype System = System(ledger: Ledger, flights: map<nat, Flight>, issued: set<string>, applied: seq<Applied>)

  datatype Event = Fetch(thread: nat, tx: Tx) | Validate(thread: nat, now: int) | Finish(thread: nat, ids: seq<string>)

  function Land(s: System, thread: nat): System {
    s.(flights := s.flights - {thread})
  }

  function Finished(n: Node, s: System, thread: nat, ids: seq<string>): System
    requires thread in s.flights && s.flights[thread].checkedAt.Some? && s.flights[thread].fetched != []
    requires |ids| == IdsNeeded(s.flights[thread].tx)
  {
    var f := s.flights[thread];
    System(Commit(s.ledger, f.tx, TxId(n.crypto, f.tx), n.feeCollector, f.fetched[0].currency, ids), s.flights - {thread},
           s.issued + Elems(ids), s.applied + [Applied(f.tx, f.checkedAt.value, ids)])
  }

  /** One step of one thread; a failed step ends the call, and uuid4 never returns an issued id. */
  function Step(n: Node, s: System, e: Event): System {
    match e
    case Fetch(thread, tx) =>
      var h := TxId(n.crypto, tx);
      if thread in s.flights || PreCheck(n.crypto, Memory, tx).Some? || FetchError(s.ledger, tx, h).Some? then s
      else s.(flights := s.flights[thread := Flight(tx, Fetched(s.ledger.utxos, tx), None)])
    case Validate(thread, now) =>
      if thread !in s.flights || s.flights[thread].checkedAt.Some? || |s.flights[thread].fetched| != |s.flights[thread].tx.inputs|
         || s.flights[thread].fetched == [] then s
      else
        var f := s.flights[thread];
        if IntentError(n.crypto, Memory, TxId(n.crypto, f.tx), f.tx, f.fetched, now).Some? then Land(s, thread)
        else s.(flights := s.flights[thread := f.(checkedAt := Some(now))])
    case Finish(thread, ids) =>
      if !(thread in s.flights && s.flights[thread].checkedAt.Some? && s.flights[thread].fetched != []) then s
      else
        var f := s.flights[thread];
        var h := TxId(n.crypto, f.tx);
        if CommitError(s.ledger, f.tx, h).Some? then Land(s, thread)
        else if |ids| != IdsNeeded(f.tx) || !FreshIds(ids, s.issued) then s
        else Finished(n, s, thread, ids)
  }

  /** A ledger that has applied nothing yet. */
  function Genesis(utxos: Tokens): System {
    System(Ledger(utxos, []), map[], utxos.Keys, [])
  }

  function Run(n: Node, utxos: Tokens, es: seq<Event>): System {
    if es == [] then Genesis(utxos) else Step(n, Run(n, utxos, es[..|es| - 1]), es[|es| - 1])
  }

  // ---------- the invariant ----------

  /** A flight's snapshot: each input was issued, and while it is live it is still the token that was read. */
  ghost predicate Sighted(s: System, f: Flight) {
    && |f.fetched| == |f.tx.inputs| > 0
    && forall i :: 0 <= i < |f.fetched| ==>
      var id := InputIds(f.tx)[i];
      id in s.issued && (id in s.ledger.utxos ==> s.ledger.utxos[id] == f.fetched[i])
  }

  ghost predicate FlightOk(n: Node, s: System, f: Flight) {
    && Sighted(s, f) && PreCheck(n.crypto, Memory, f.tx).None?
    && (f.checkedAt.Some? ==> IntentError(n.crypto, Memory, TxId(n.crypto, f.tx), f.tx, f.fetched, f.checkedAt.value).None?)
  }

  /** Inputs of an applied transaction: issued once, gone for good. */
  ghost predicate Gone(s: System, tx: Tx) {
    forall id :: id in InputIds(tx) ==> id in s.issued && id !in s.ledger.utxos
  }

  function AppliedIds(c: Crypto, applied: seq<Applied>): seq<string> {
    seq(|applied|, i requires 0 <= i < |applied| => TxId(c, applied[i].tx))
  }

  function Last(s: seq<string>, n: nat): seq<string> {
    if |s| <= n then s else s[|s| - n..]
  }

  ghost predicate Inv(n: Node, s: System) {
    && s.ledger.utxos.Keys <= s.issued
    && (forall t :: t in s.flights ==> FlightOk(n, s, s.flights[t]))
    && (forall i :: 0 <= i < |s.applied| ==> s.applied[i].tx.inputs != [] && Gone(s, s.applied[i].tx))
    && (forall i, j :: 0 <= i < j < |s.applied| ==> Disjoint(s.applied[i].tx, s.applied[j].tx))
    && s.ledger.processed == Last(AppliedIds(n.crypto, s.applied), MAX_HISTORY_SIZE)
  }

  /** While every input is still present, the snapshot is the present. */
  lemma SightedNow(n: Node, s: System, f: Flight)
    requires Sighted(s, f) && Present(s.ledger.utxos, f.tx)
    ensures Fetched(s.ledger.utxos, f.tx) == f.fetched
  {
    forall i | 0 <= i < |f.fetched| ensures Fetched(s.ledger.utxos, f.tx)[i] == f.fetched[i] {
      assert InputIds(f.tx)[i] in InputIds(f.tx);
    }
  }

  /** Committing a validated flight does, and refuses, what full atomic application at this moment would. */
  lemma CommitIsAtomic(n: Node, s: System, thread: nat, ids: seq<string>)
    requires Inv(n, s) && thread in s.flights && s.flights[thread].checkedAt.Some?
    requires |ids| == IdsNeeded(s.flights[thread].tx) && FreshIds(ids, s.issued)
    ensures var f := s.flights[thread];
            var whole := AtomicApply(n.crypto, n.feeCollector, s.ledger, f.tx, f.checkedAt.value, ids);
            && (CommitError(s.ledger, f.tx, TxId(n.crypto, f.tx)).None? <==> whole.Ok?)
            && Step(n, s, Finish(thread, ids)).ledger == if whole.Ok? then whole.value else s.ledger
  {
    var f := s.flights[thread];
    assert FlightOk(n, s, f);
    if Present(s.ledger.utxos, f.tx) {
      SightedNow(n, s, f);
    }
  }

  lemma LastGrows(ids: seq<string>, h: string)
    ensures Last(ids + [h], MAX_HISTORY_SIZE) == Remember(Last(ids, MAX_HISTORY_SIZE), h)
  {
  }

  lemma SightedLater(s: System, s': System, f: Flight)
    requires Sighted(s, f) && s.issued <= s'.issued
    requires forall id :: id in s.issued && id in s'.ledger.utxos ==> id in s.ledger.utxos && s'.ledger.utxos[id] == s.ledger.utxos[id]
    ensures Sighted(s', f)
  {
  }

  lemma FlightsLater(n: Node, s: System, s': System)
    requires forall t :: t in s.flights ==> FlightOk(n, s, s.flights[t])
    requires forall t :: t in s'.flights ==> t in s.flights && s'.flights[t] == s.flights[t]
    requires s.issued <= s'.issued
    requires forall id :: id in s.issued && id in s'.ledger.utxos ==> id in s.ledger.utxos && s'.ledger.utxos[id] == s.ledger.utxos[id]
    ensures forall t :: t in s'.flights ==> FlightOk(n, s', s'.flights[t])
  {
    forall t | t in s'.flights ensures FlightOk(n, s', s'.flights[t]) {
      assert FlightOk(n, s, s.flights[t]);
      SightedLater(s, s', s.flights[t]);
    }
  }

  lemma FinishKeepsInv(n: Node, s: System, thread: nat, ids: seq<string>)
    requires Inv(n, s) && thread in s.flights && s.flights[thread].checkedAt.Some? && s.flights[thread].fetched != []
    requires |ids| == IdsNeeded(s.flights[thread].tx) && FreshIds(ids, s.issued)
    requires CommitError(s.ledger, s.flights[thread].tx, TxId(n.crypto, s.flights[thread].tx)).None?
    ensures Inv(n, Finished(n, s, thread, ids))
  {
    var f, s' := s.flights[thread], Finished(n, s, thread, ids);
    assert FlightOk(n, s, f);
    AfterAt(s.ledger.utxos, f.tx, n.feeCollector, f.fetched[0].currency, ids, s.issued);
    FlightsLater(n, s, s');
    AppliedLater(s, s', f.tx, Elems(ids));
    LastGrows(AppliedIds(n.crypto, s.applied), TxId(n.crypto, f.tx));
    assert AppliedIds(n.crypto, s'.applied) == AppliedIds(n.crypto, s.applied) + [TxId(n.crypto, f.tx)];
  }

  lemma AppliedLater(s: System, s': System, tx: Tx, made: set<string>)
    requires forall i :: 0 <= i < |s.applied| ==> Gone(s, s.applied[i].tx)
    requires forall i, j :: 0 <= i < j < |s.applied| ==> Disjoint(s.applied[i].tx, s.applied[j].tx)
    requires tx.inputs != [] && Present(s.ledger.utxos, tx) && s.ledger.utxos.Keys <= s.issued && made !! s.issued
    requires |s'.applied| == |s.applied| + 1 && s'.applied[..|s.applied|] == s.applied && s'.applied[|s.applied|].tx == tx
    requires s'.issued == s.issued + made && s'.ledger.utxos.Keys == s.ledger.utxos.Keys - Elems(InputIds(tx)) + made
    ensures forall i :: 0 <= i < |s'.applied| ==> Gone(s', s'.applied[i].tx)
    ensures forall i, j :: 0 <= i < j < |s'.applied| ==> Disjoint(s'.applied[i].tx, s'.applied[j].tx)
  {
    forall i | 0 <= i < |s'.applied| ensures Gone(s', s'.applied[i].tx) {
      if i < |s.applied| {
        assert s'.applied[i] == s.applied[i] && Gone(s, s.applied[i].tx);
      }
    }
    forall i, j | 0 <= i < j < |s'.applied| ensures Disjoint(s'.applied[i].tx, s'.applied[j].tx) {
      assert s'.applied[i] == s.applied[i] && Gone(s, s.applied[i].tx);
      if j < |s.applied| {
        assert s'.applied[j] == s.applied[j];
      }
    }
  }

  lemma FetchKeepsInv(n: Node, s: System, thread: nat, tx: Tx)
    requires Inv(n, s)
    ensures Inv(n, Step(n, s, Fetch(thread, tx)))
  {
    var s' := Step(n, s, Fetch(thread, tx));
    if s' != s {
      var f := s'.flights[thread];
      assert Sighted(s', f) by {
        assert forall i :: 0 <= i < |tx.inputs| ==> InputIds(tx)[i] in InputIds(tx);
      }
      forall t | t in s'.flights ensures FlightOk(n, s', s'.flights[t]) {
        if t != thread {
          assert FlightOk(n, s, s.flights[t]);
        }
      }
      forall i | 0 <= i < |s'.applied| ensures Gone(s', s'.applied[i].tx) {
        assert Gone(s, s.applied[i].tx);
      }
    }
  }

  lemma ValidateKeepsInv(n: Node, s: System, thread: nat, now: int)
    requires Inv(n, s)
    ensures Inv(n, Step(n, s, Validate(thread, now)))
  {
    var s' := Step(n, s, Validate(thread, now));
    forall t | t in s'.flights ensures FlightOk(n, s', s'.flights[t]) {
      assert FlightOk(n, s, s.flights[t]);
    }
    forall i | 0 <= i < |s'.applied| ensures Gone(s', s'.applied[i].tx) {
      assert Gone(s, s.applied[i].tx);
    }
  }

  lemma LandKeepsInv(n: Node, s: System, thread: nat)
    requires Inv(n, s)
    ensures Inv(n, Land(s, thread))
  {
    var s' := Land(s, thread);
    forall t | t in s'.flights ensures FlightOk(n, s', s'.flights[t]) {
      assert FlightOk(n, s, s.flights[t]);
    }
    forall i | 0 <= i < |s'.applied| ensures Gone(s', s'.applied[i].tx) {
      assert Gone(s, s.applied[i].tx);
    }
  }

  lemma StepKeepsInv(n: Node, s: System, e: Event)
    requires Inv(n, s)
    ensures Inv(n, Step(n, s, e))
  {
    match e
    case Fetch(thread, tx) => FetchKeepsInv(n, s, thread, tx);
    case Validate(thread, now) => ValidateKeepsInv(n, s, thread, now);
    case Finish(thread, ids) =>
      var s' := Step(n, s, e);
      if s' == Land(s, thread) {
        LandKeepsInv(n, s, thread);
      } else if s' != s {
        FinishKeepsInv(n, s, thread, ids);
      }
  }

  /** Every interleaving of any number of threads keeps the invariant. */
  lemma {:induction false} RunKeepsInv(n: Node, utxos: Tokens, es: seq<Event>)
    ensures Inv(n, Run(n, utxos, es))
  {
    if es != [] {
      RunKeepsInv(n, utxos, es[..|es| - 1]);
      StepKeepsInv(n, Run(n, utxos, es[..|es| - 1]), es[|es| - 1]);
    }
  }

  /** A thread that has validated and now takes the lock again, with new ids for its tokens. */
  predicate Ready(s: System, thread: nat, ids: seq<string>) {
    && thread in s.flights && s.flights[thread].checkedAt.Some?
    && |ids| == IdsNeeded(s.flights[thread].tx) && FreshIds(ids, s.issued)
  }

  /** In every reached state, whatever other threads did since the fetch, finishing is all-or-nothing atomic application. */
  lemma {:induction false} FinishIsAtomic(n: Node, utxos: Tokens, es: seq<Event>, thread: nat, ids: seq<string>)
    ensures var s := Run(n, utxos, es);
            Ready(s, thread, ids) ==>
              var f := s.flights[thread];
              var whole := AtomicApply(n.crypto, n.feeCollector, s.ledger, f.tx, f.checkedAt.value, ids);
              && Step(n, s, Finish(thread, ids)).ledger == (if whole.Ok? then whole.value else s.ledger)
              && thread !in Step(n, s, Finish(thread, ids)).flights
  {
    if Ready(Run(n, utxos, es), thread, ids) {
      RunKeepsInv(n, utxos, es);
      CommitIsAtomic(n, Run(n, utxos, es), thread, ids);
    }
  }

  // ---------- serial equivalence ----------

  /** Applying a list of transactions one after the other, each atomically and in full. */
  function Serial(n: Node, start: Ledger, applied: seq<Applied>): Result<Ledger, Error> {
    if applied == [] then Ok(start) else
      var front, a := Serial(n, start, applied[..|applied| - 1]), applied[|applied| - 1];
      if front.Err? then front
      else if |a.ids| != IdsNeeded(a.tx) then Err(Conflict)
      else AtomicApply(n.crypto, n.feeCollector, front.value, a.tx, a.now, a.ids)
  }

  /** Linearizable: any interleaving leaves the ledger that serial, fully validated application of the committed
      transactions, in commit order, leaves; none of them fails. */
  lemma {:induction false} Linearizable(n: Node, utxos: Tokens, es: seq<Event>)
    ensures var s := Run(n, utxos, es); Serial(n, Ledger(utxos, []), s.applied) == Ok(s.ledger)
  {
    if es != [] {
      var front, e := es[..|es| - 1], es[|es| - 1];
      Linearizable(n, utxos, front);
      RunKeepsInv(n, utxos, front);
      var s, s' := Run(n, utxos, front), Run(n, utxos, es);
      if s'.applied != s.applied {
        CommitIsAtomic(n, s, e.thread, e.ids);
        assert s'.applied[..|s.applied|] == s.applied;
      }
    }
  }

  // ---------- replays ----------

  /** No transaction that shares an input with an applied one is ever admitted again, remembered or not. */
  lemma {:induction false} NeverAgain(n: Node, utxos: Tokens, es: seq<Event>, i: nat, tx: Tx, now: int, ids: seq<string>)
    requires i < |Run(n, utxos, es).applied| && !Disjoint(Run(n, utxos, es).applied[i].tx, tx)
    ensures |ids| == IdsNeeded(tx) ==> AtomicApply(n.crypto, n.feeCollector, Run(n, utxos, es).ledger, tx, now, ids).Err?
  {
    RunKeepsInv(n, utxos, es);
    var s := Run(n, utxos, es);
    assert Gone(s, s.applied[i].tx);
  }

  /** Forgetting is safe: the history is the last MAX_HISTORY_SIZE applied ids, and whatever it has dropped,
      no token is consumed twice and no transaction is applied twice. */
  lemma {:induction false} ForgettingIsSafe(n: Node, utxos: Tokens, es: seq<Event>)
    ensures var s := Run(n, utxos, es);
            && s.ledger.processed == Last(AppliedIds(n.crypto, s.applied), MAX_HISTORY_SIZE)
            && forall i, j :: 0 <= i < j < |s.applied| ==>
                 Disjoint(s.applied[i].tx, s.applied[j].tx) && s.applied[i].tx != s.applied[j].tx
  {
    RunKeepsInv(n, utxos, es);
    var s := Run(n, utxos, es);
    forall i, j | 0 <= i < j < |s.applied| ensures s.applied[i].tx != s.applied[j].tx {
      assert Disjoint(s.applied[i].tx, s.applied[j].tx);
      assert InputIds(s.applied[i].tx)[0] in InputIds(s.applied[i].tx);
    }
  }

  // ---------- conservation ----------

  lemma FlightAdmitted(n: Node, s: System, thread: nat)
    requires Inv(n, s) && thread in s.flights && s.flights[thread].checkedAt.Some?
    requires Present(s.ledger.utxos, s.flights[thread].tx)
    ensures var f := s.flights[thread];
            Fetched(s.ledger.utxos, f.tx) == f.fetched && Admits(n.crypto, Memory, s.ledger.utxos, f.tx, f.checkedAt.value)
  {
    assert FlightOk(n, s, s.flights[thread]);
    SightedNow(n, s, s.flights[thread]);
  }

  lemma FinishCommits(n: Node, s: System, thread: nat, ids: seq<string>)
    requires thread in s.flights && s.flights[thread].checkedAt.Some? && s.flights[thread].fetched != []
    requires |ids| == IdsNeeded(s.flights[thread].tx) && FreshIds(ids, s.issued)
    requires CommitError(s.ledger, s.flights[thread].tx, TxId(n.crypto, s.flights[thread].tx)).None?
    ensures var f := s.flights[thread];
            Step(n, s, Finish(thread, ids)).ledger.utxos == After(s.ledger.utxos, f.tx, n.feeCollector, f.fetched[0].currency, ids)
  {
  }

  lemma AtomicConserves(n: Node, s: System, thread: nat, ids: seq<string>, currency: string)
    requires Inv(n, s) && thread in s.flights && s.flights[thread].checkedAt.Some?
    requires |ids| == IdsNeeded(s.flights[thread].tx) && FreshIds(ids, s.issued)
    requires CommitError(s.ledger, s.flights[thread].tx, TxId(n.crypto, s.flights[thread].tx)).None?
    requires Value(s.ledger.utxos, currency) < LIMIT
    ensures Value(Step(n, s, Finish(thread, ids)).ledger.utxos, currency) == Value(s.ledger.utxos, currency)
  {
    var f := s.flights[thread];
    FlightAdmitted(n, s, thread);
    FinishCommits(n, s, thread, ids);
    AdmittedConserves(n.crypto, Memory, s.ledger.utxos, f.tx, f.checkedAt.value, n.feeCollector, ids, s.issued, currency);
  }

  /** A currency whose genesis tokens are worth less than 10^28 cents keeps its total, fees included, forever. */
  lemma {:induction false} RunConserves(n: Node, utxos: Tokens, es: seq<Event>, currency: string)
    requires Value(utxos, currency) < LIMIT
    ensures Value(Run(n, utxos, es).ledger.utxos, currency) == Value(utxos, currency)
  {
    if es != [] {
      var front, e := es[..|es| - 1], es[|es| - 1];
      RunConserves(n, utxos, front, currency);
      RunKeepsInv(n, utxos, front);
      var s := Run(n, utxos, front);
      if Step(n, s, e).ledger != s.ledger {
        AtomicConserves(n, s, e.thread, e.ids, currency);
      }
    }
  }

  // ---------- who is paid ----------

  /** A step that applies a transaction: it is the one the thread fetched, and it pays as it says. */
  ghost predicate AppliesAndPays(n: Node, s: System, s': System, e: Event) {
    && e.Finish? && e.thread in s.flights && s.flights[e.thread].checkedAt.Some?
    && var f := s.flights[e.thread];
       && s'.applied == s.applied + [Applied(f.tx, f.checkedAt.value, e.ids)]
       && PaysOut(s.ledger.utxos, s'.ledger.utxos, f.tx, n.feeCollector)
       && Issues(s.ledger.utxos, s'.ledger.utxos, f.tx, n.feeCollector, e.ids)
  }

  lemma FinishPays(n: Node, s: System, thread: nat, ids: seq<string>)
    requires Inv(n, s) && thread in s.flights && s.flights[thread].checkedAt.Some? && s.flights[thread].fetched != []
    requires |ids| == IdsNeeded(s.flights[thread].tx) && FreshIds(ids, s.issued)
    requires CommitError(s.ledger, s.flights[thread].tx, TxId(n.crypto, s.flights[thread].tx)).None?
    ensures AppliesAndPays(n, s, Step(n, s, Finish(thread, ids)), Finish(thread, ids))
  {
    var f := s.flights[thread];
    FlightAdmitted(n, s, thread);
    FinishCommits(n, s, thread, ids);
    AdmittedPays(n.crypto, Memory, s.ledger.utxos, f.tx, f.checkedAt.value, n.feeCollector, ids);
  }

  /** Whatever the interleaving, a step either leaves all tokens alone, or applies one transaction that pays as it says. */
  lemma {:induction false} EveryStepPays(n: Node, utxos: Tokens, es: seq<Event>, e: Event)
    ensures var s, s' := Run(n, utxos, es), Run(n, utxos, es + [e]);
            if s'.applied == s.applied then s'.ledger.utxos == s.ledger.utxos else AppliesAndPays(n, s, s', e)
  {
    assert (es + [e])[..|es|] == es;
    RunKeepsInv(n, utxos, es);
    var s := Run(n, utxos, es);
    if Step(n, s, e).applied != s.applied {
      FinishPays(n, s, e.thread, e.ids);
    }
  }

  /** What the transactions applied in a run moved for an owner, each counted among the tokens of its moment. */
  function Moved(n: Node, utxos: Tokens, es: seq<Event>, owner: string, currency: string, at: int): int {
    if es == [] then 0 else
      var front := es[..|es| - 1];
      var s, s' := Run(n, utxos, front), Run(n, utxos, es);
      Moved(n, utxos, front, owner, currency, at) +
      if |s'.applied| <= |s.applied| then 0
      else Moves(s.ledger.utxos, s'.applied[|s.applied|].tx, n.feeCollector, owner, currency, at)
  }

  /** After every run each balance is the genesis balance plus what the applied transactions moved. */
  lemma {:induction false} RunBalance(n: Node, utxos: Tokens, es: seq<Event>, owner: string, currency: string, at: int)
    ensures Balance(Run(n, utxos, es).ledger.utxos, owner, currency, at) ==
            Balance(utxos, owner, currency, at) + Moved(n, utxos, es, owner, currency, at)
  {
    if es != [] {
      var front, e := es[..|es| - 1], es[|es| - 1];
      assert es == front + [e];
      RunBalance(n, utxos, front, owner, currency, at);
      EveryStepPays(n, utxos, front, e);
    }
  }

  // ---------- the bound is sharp ----------

  // ---------- calls nobody disturbs ----------

  lemma NotInFlight(n: Node, s: System, thread: nat, now: int, ids: seq<string>)
    requires thread !in s.flights
    ensures Step(n, s, Validate(thread, now)) == s && Step(n, s, Finish(thread, ids)) == s
  {
  }

  function Flying(s: System, thread: nat, f: Flight): System {
    s.(flights := s.flights[thread := f])
  }

  lemma FetchFlies(n: Node, s: System, thread: nat, tx: Tx)
    requires thread !in s.flights
    ensures Step(n, s, Fetch(thread, tx)) ==
            if PreCheck(n.crypto, Memory, tx).None? && FetchError(s.ledger, tx, TxId(n.crypto, tx)).None?
            then Flying(s, thread, Flight(tx, Fetched(s.ledger.utxos, tx), None)) else s
  {
  }

  lemma ValidateDecides(n: Node, s: System, thread: nat, tx: Tx, fetched: seq<Utxo>, now: int)
    requires thread !in s.flights && |fetched| == |tx.inputs| > 0
    ensures Step(n, Flying(s, thread, Flight(tx, fetched, None)), Validate(thread, now)) ==
            if IntentError(n.crypto, Memory, TxId(n.crypto, tx), tx, fetched, now).Some? then s
            else Flying(s, thread, Flight(tx, fetched, Some(now)))
  {
    assert s.flights[thread := Flight(tx, fetched, None)] - {thread} == s.flights;
  }

  lemma FinishLands(n: Node, s: System, thread: nat, tx: Tx, fetched: seq<Utxo>, now: int, ids: seq<string>)
    requires thread !in s.flights && |fetched| == |tx.inputs| > 0 && |ids| == IdsNeeded(tx) && FreshIds(ids, s.issued)
    requires FetchError(s.ledger, tx, TxId(n.crypto, tx)).None?
    ensures var s' := Step(n, Flying(s, thread, Flight(tx, fetched, Some(now))), Finish(thread, ids));
            && s'.ledger == Commit(s.ledger, tx, TxId(n.crypto, tx), n.feeCollector, fetched[0].currency, ids)
            && s'.flights == s.flights
  {
    assert s.flights[thread := Flight(tx, fetched, Some(now))] - {thread} == s.flights;
  }

  /** In any state, a call whose three steps follow each other is one atomic application, and leaves the thread free. */
  lemma CallIsAtomic(n: Node, s: System, thread: nat, tx: Tx, now: int, ids: seq<string>)
    requires thread !in s.flights && |ids| == IdsNeeded(tx) && FreshIds(ids, s.issued)
    ensures var s' := Step(n, Step(n, Step(n, s, Fetch(thread, tx)), Validate(thread, now)), Finish(thread, ids));
            var whole := AtomicApply(n.crypto, n.feeCollector, s.ledger, tx, now, ids);
            s'.ledger == (if whole.Ok? then whole.value else s.ledger) && s'.flights == s.flights
  {
    FetchFlies(n, s, thread, tx);
    NotInFlight(n, s, thread, now, ids);
    if PreCheck(n.crypto, Memory, tx).None? && FetchError(s.ledger, tx, TxId(n.crypto, tx)).None? {
      var us := Fetched(s.ledger.utxos, tx);
      ValidateDecides(n, s, thread, tx, us, now);
      FinishLands(n, s, thread, tx, us, now, ids);
    }
  }

  function Undisturbed(tx: Tx, now: int, ids: seq<string>): seq<Event> {
    [Fetch(0, tx), Validate(0, now), Finish(0, ids)]
  }

  lemma RunOfThree(n: Node, utxos: Tokens, a: Event, b: Event, c: Event)
    ensures Run(n, utxos, [a, b, c]) == Step(n, Step(n, Step(n, Genesis(utxos), a), b), c)
  {
    assert [a, b, c][..2] == [a, b] && [a, b][..1] == [a] && [a][..0] == [];
    assert Run(n, utxos, [a]) == Step(n, Genesis(utxos), a);
    assert Run(n, utxos, [a, b]) == Step(n, Run(n, utxos, [a]), b);
  }

  /** A call nobody disturbs applies what is admitted, and it pays as it says. */
  lemma UndisturbedApplies(n: Node, utxos: Tokens, tx: Tx, now: int, ids: seq<string>)
    requires Admits(n.crypto, Memory, utxos, tx, now) && |ids| == IdsNeeded(tx) && FreshIds(ids, utxos.Keys)
    ensures var t := Run(n, utxos, Undisturbed(tx, now, ids)).ledger.utxos;
            && t == After(utxos, tx, n.feeCollector, Fetched(utxos, tx)[0].currency, ids)
            && PaysOut(utxos, t, tx, n.feeCollector) && Issues(utxos, t, tx, n.feeCollector, ids)
  {
    AdmittedPays(n.crypto, Memory, utxos, tx, now, n.feeCollector, ids);
    RunOfThree(n, utxos, Fetch(0, tx), Validate(0, now), Finish(0, ids));
    CallIsAtomic(n, Genesis(utxos), 0, tx, now, ids);
  }

  lemma SkimInflates(n: Node, k: Skim, ids: seq<string>)
    requires k.Signed(n.crypto) && |ids| == 3 && FreshIds(ids, {k.a, k.b})
    ensures Value(k.Pile(), "INR") == LIMIT
    ensures Value(Run(n, k.Pile(), Undisturbed(k.AsTx(), 0, ids)).ledger.utxos, "INR") == LIMIT + 1
  {
    PileValue(k);
    SkimAdmitted(n.crypto, Memory, k);
    SkimGains(k, n.feeCollector, ids, {k.a, k.b});
    UndisturbedApplies(n, k.Pile(), k.AsTx(), 0, ids);
  }

  /** On every node that takes some owner's signatures for two tokens: every run from every genesis worth at most
      bound keeps its total, if and only if bound < 10^28 cents. */
  lemma RunConservesIff(n: Node, k: Skim, ids: seq<string>, bound: nat)
    requires k.Signed(n.crypto) && |ids| == 3 && FreshIds(ids, {k.a, k.b})
    ensures (forall utxos: Tokens, es: seq<Event>, currency: string :: Value(utxos, currency) <= bound ==>
               Value(Run(n, utxos, es).ledger.utxos, currency) == Value(utxos, currency)) <==> bound < LIMIT
  {
    if bound < LIMIT {
      forall utxos: Tokens, es: seq<Event>, currency: string | Value(utxos, currency) <= bound
        ensures Value(Run(n, utxos, es).ledger.utxos, currency) == Value(utxos, currency)
      {
        RunConserves(n, utxos, es, currency);
      }
    } else {
      SkimInflates(n, k, ids);
      assert Value(Run(n, k.Pile(), Undisturbed(k.AsTx(), 0, ids)).ledger.utxos, "INR") != Value(k.Pile(), "INR");
    }
  }
}
