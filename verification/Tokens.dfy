/** The set of live tokens: what one accepted transaction does to it, its value, and its owner index. */
module Tokens {
  import opened Prelude
  import opened Decimal
  import opened Rounding
  import opened Syntax
  import opened TxRules

  type Tokens = map<string, Utxo>

  /** The tokens a transaction creates: its outputs in order, then a fee token if there is a fee. */
  function Made(tx: Tx, feeCollector: string, currency: string): seq<Utxo> {
    seq(|tx.outputs|, i requires 0 <= i < |tx.outputs| =>
      var o := tx.outputs[i];
      Utxo(Positive(o.amount), o.currency, o.owner, o.lockScript, None)) +
    if tx.fee > 0 then [Utxo(tx.fee, currency, feeCollector, "", None)] else []
  }

  /** Ids drawn for a transaction's new tokens. */
  function IdsNeeded(tx: Tx): nat {
    |tx.outputs| + if tx.fee > 0 then 1 else 0
  }

  /** What one ledger node is configured with. */
  datatype Node = Node(crypto: Crypto, feeCollector: string)

  /** A transaction that was applied, the clock reading that validated it, and the ids of its new tokens. */
  datatype Applied = Applied(tx: Tx, now: int, ids: seq<string>)

  ghost predicate Disjoint(a: Tx, b: Tx) {
    forall id :: id in InputIds(a) ==> id !in InputIds(b)
  }

  function Put(t: Tokens, ids: seq<string>, us: seq<Utxo>): Tokens
    requires |ids| == |us|
  {
    if ids == [] then t else
      var n := |ids| - 1;
      Put(t, ids[..n], us[..n])[ids[n] := us[n]]
  }

  /** Inputs out, new tokens in. */
  function After(t: Tokens, tx: Tx, feeCollector: string, currency: string, ids: seq<string>): Tokens
    requires |ids| == |Made(tx, feeCollector, currency)|
  {
    Put(t - Elems(InputIds(tx)), ids, Made(tx, feeCollector, currency))
  }

  function Fetched(t: Tokens, tx: Tx): seq<Utxo>
    requires forall id :: id in InputIds(tx) ==> id in t
  {
    seq(|tx.inputs|, i requires 0 <= i < |tx.inputs| => assert InputIds(tx)[i] in t; t[InputIds(tx)[i]])
  }

  predicate Present(t: Tokens, tx: Tx) {
    forall id :: id in InputIds(tx) ==> id in t
  }

  /** Full acceptance against the tokens as they are now. */
  predicate Admits(c: Crypto, rules: Rules, t: Tokens, tx: Tx, now: int) {
    && PreCheck(c, rules, tx).None? && Present(t, tx)
    && IntentError(c, rules, TxId(c, tx), tx, Fetched(t, tx), now).None?
  }

  /** Ids a uuid4 draw may return: distinct and never issued before. */
  predicate FreshIds(ids: seq<string>, issued: set<string>) {
    NoDup(ids) && forall id :: id in ids ==> id !in issued
  }

  lemma ElemsSplit(ids: seq<string>)
    requires ids != []
    ensures var n := |ids| - 1;
            Elems(ids) == Elems(ids[..n]) + {ids[n]} && (forall id :: id in ids <==> id in ids[..n] || id == ids[n])
  {
    assert ids == ids[..|ids| - 1] + [ids[|ids| - 1]];
  }

  lemma {:induction false} PutAt(t: Tokens, ids: seq<string>, us: seq<Utxo>)
    requires |ids| == |us| && NoDup(ids)
    ensures Put(t, ids, us).Keys == t.Keys + Elems(ids)
    ensures forall i :: 0 <= i < |ids| ==> Put(t, ids, us)[ids[i]] == us[i]
    ensures forall id :: id in t && id !in ids ==> Put(t, ids, us)[id] == t[id]
  {
    if ids != [] {
      var n := |ids| - 1;
      PutAt(t, ids[..n], us[..n]);
      ElemsSplit(ids);
      var front := Put(t, ids[..n], us[..n]);
      assert Put(t, ids, us) == front[ids[n] := us[n]];
      forall i | 0 <= i < n ensures front[ids[i]] == us[i] {
        assert ids[..n][i] == ids[i] && us[..n][i] == us[i];
      }
    }
  }

  /** After a transaction: its inputs are gone, its new tokens are there, everything else is untouched. */
  lemma AfterAt(t: Tokens, tx: Tx, feeCollector: string, currency: string, ids: seq<string>, issued: set<string>)
    requires |ids| == |Made(tx, feeCollector, currency)| && FreshIds(ids, issued) && t.Keys <= issued && Present(t, tx)
    ensures var t' := After(t, tx, feeCollector, currency, ids);
            && t'.Keys == t.Keys - Elems(InputIds(tx)) + Elems(ids)
            && (forall id :: id in t' && id in issued ==> id in t && t'[id] == t[id])
            && (forall i :: 0 <= i < |ids| ==> t'[ids[i]] == Made(tx, feeCollector, currency)[i])
  {
    PutAt(t - Elems(InputIds(tx)), ids, Made(tx, feeCollector, currency));
  }

  // ---------- value ----------

  ghost function ValueWeight(t: Tokens, currency: string): string -> int {
    id => if id in t && t[id].currency == currency then t[id].amount else 0
  }

  /** Everything the live tokens of a currency are worth. */
  ghost function Value(t: Tokens, currency: string): int {
    SetSum(t.Keys, ValueWeight(t, currency))
  }

  function ListAmounts(us: seq<Utxo>, currency: string): seq<nat> {
    seq(|us|, i requires 0 <= i < |us| => if us[i].currency == currency then us[i].amount else 0)
  }

  lemma {:induction false} ValueOfPut(t: Tokens, ids: seq<string>, us: seq<Utxo>, currency: string)
    requires |ids| == |us| && NoDup(ids) && forall id :: id in ids ==> id !in t
    ensures Value(Put(t, ids, us), currency) == Value(t, currency) + Sum(ListAmounts(us, currency))
  {
    var t' := Put(t, ids, us);
    var w := ValueWeight(t', currency);
    PutAt(t, ids, us);
    SetSumUnion(t.Keys, Elems(ids), w);
    SetSumCongruent(t.Keys, w, ValueWeight(t, currency));
    SetSumOfList(ids, w, ListAmounts(us, currency));
  }

  lemma ValueOfRemove(t: Tokens, ids: seq<string>, us: seq<Utxo>, currency: string)
    requires NoDup(ids) && |us| == |ids| && forall i :: 0 <= i < |ids| ==> ids[i] in t && t[ids[i]] == us[i]
    ensures Value(t - Elems(ids), currency) == Value(t, currency) - Sum(ListAmounts(us, currency))
  {
    var w, rest := ValueWeight(t, currency), t - Elems(ids);
    assert t.Keys == rest.Keys + Elems(ids);
    SetSumUnion(rest.Keys, Elems(ids), w);
    SetSumCongruent(rest.Keys, w, ValueWeight(rest, currency));
    SetSumOfList(ids, w, ListAmounts(us, currency));
  }

  lemma {:induction false} SumOfZeros(s: seq<nat>)
    requires forall i :: 0 <= i < |s| ==> s[i] == 0
    ensures Sum(s) == 0
  {
    if s != [] {
      SumOfZeros(s[..|s| - 1]);
    }
  }

  lemma SameCurrencyList(us: seq<Utxo>, amounts: seq<nat>, theirs: string, currency: string)
    requires |us| == |amounts|
    requires forall i :: 0 <= i < |us| ==> us[i].currency == theirs && us[i].amount == amounts[i]
    ensures Sum(ListAmounts(us, currency)) == if theirs == currency then Sum(amounts) else 0
  {
    if theirs == currency {
      assert ListAmounts(us, currency) == amounts;
    } else {
      SumOfZeros(ListAmounts(us, currency));
    }
  }

  lemma MadeSum(tx: Tx, feeCollector: string, theirs: string, currency: string)
    requires tx.fee >= 0 && forall i :: 0 <= i < |tx.outputs| ==> tx.outputs[i].currency == theirs
    ensures Sum(ListAmounts(Made(tx, feeCollector, theirs), currency)) ==
            if theirs == currency then Sum(OutAmounts(tx.outputs)) + tx.fee else 0
  {
    var us := Made(tx, feeCollector, theirs);
    if tx.fee > 0 {
      SumAppend(OutAmounts(tx.outputs), [tx.fee]);
      assert [tx.fee][..0] == [] && Sum([tx.fee]) == tx.fee;
      SameCurrencyList(us, OutAmounts(tx.outputs) + [tx.fee], theirs, currency);
    } else {
      SameCurrencyList(us, OutAmounts(tx.outputs), theirs, currency);
    }
  }

  lemma ValueAfter(t: Tokens, tx: Tx, feeCollector: string, ids: seq<string>, issued: set<string>, theirs: string, currency: string)
    requires |ids| == |Made(tx, feeCollector, theirs)| && FreshIds(ids, issued) && t.Keys <= issued && Present(t, tx)
    requires NoDup(InputIds(tx)) && tx.fee >= 0
    requires forall i :: 0 <= i < |tx.outputs| ==> tx.outputs[i].currency == theirs
    requires forall i :: 0 <= i < |tx.inputs| ==> Fetched(t, tx)[i].currency == theirs
    ensures Value(After(t, tx, feeCollector, theirs, ids), currency) == Value(t, currency) +
              if theirs == currency then Sum(OutAmounts(tx.outputs)) + tx.fee - Sum(InAmounts(Fetched(t, tx))) else 0
  {
    var ins := InputIds(tx);
    ValueOfRemove(t, ins, Fetched(t, tx), currency);
    SameCurrencyList(Fetched(t, tx), InAmounts(Fetched(t, tx)), theirs, currency);
    ValueOfPut(t - Elems(ins), ids, Made(tx, feeCollector, theirs), currency);
    MadeSum(tx, feeCollector, theirs, currency);
  }

  lemma InputsWithinValue(t: Tokens, tx: Tx, currency: string)
    requires Present(t, tx) && NoDup(InputIds(tx))
    requires forall i :: 0 <= i < |tx.inputs| ==> Fetched(t, tx)[i].currency == currency
    ensures Sum(InAmounts(Fetched(t, tx))) <= Value(t, currency)
  {
    var ins := InputIds(tx);
    ValueOfRemove(t, ins, Fetched(t, tx), currency);
    SameCurrencyList(Fetched(t, tx), InAmounts(Fetched(t, tx)), currency, currency);
    var rest := t - Elems(ins);
    SetSumNonNegative(rest.Keys, ValueWeight(rest, currency));
  }

  /** What admission says of the currencies and totals. */
  lemma AdmittedTotals(c: Crypto, rules: Rules, t: Tokens, tx: Tx, now: int)
    requires Admits(c, rules, t, tx, now)
    ensures var us := Fetched(t, tx);
            && NoDup(InputIds(tx)) && tx.fee >= 0 && Balanced(us, tx.outputs, tx.fee)
            && (forall i :: 0 <= i < |tx.outputs| ==> tx.outputs[i].currency == us[0].currency)
            && (forall i :: 0 <= i < |tx.inputs| ==> us[i].currency == us[0].currency)
  {
    AcceptedIffSound(c, rules, tx, Fetched(t, tx), now);
  }

  lemma BalancedConserves(t: Tokens, tx: Tx, feeCollector: string, ids: seq<string>, issued: set<string>,
                          theirs: string, currency: string)
    requires |ids| == |Made(tx, feeCollector, theirs)| && FreshIds(ids, issued) && t.Keys <= issued && Present(t, tx)
    requires NoDup(InputIds(tx)) && tx.fee >= 0 && Balanced(Fetched(t, tx), tx.outputs, tx.fee)
    requires forall i :: 0 <= i < |tx.outputs| ==> tx.outputs[i].currency == theirs
    requires forall i :: 0 <= i < |tx.inputs| ==> Fetched(t, tx)[i].currency == theirs
    requires Value(t, currency) < LIMIT
    ensures Value(After(t, tx, feeCollector, theirs, ids), currency) == Value(t, currency)
  {
    ValueAfter(t, tx, feeCollector, ids, issued, theirs, currency);
    if theirs == currency {
      InputsWithinValue(t, tx, currency);
      BalancedBelowLimit(InAmounts(Fetched(t, tx)), OutAmounts(tx.outputs), tx.fee);
    }
  }

  /** While a currency is worth less than 10^28 cents, an admitted transaction leaves its total unchanged. */
  lemma AdmittedConserves(c: Crypto, rules: Rules, t: Tokens, tx: Tx, now: int, feeCollector: string, ids: seq<string>,
                          issued: set<string>, currency: string)
    requires Admits(c, rules, t, tx, now) && Value(t, currency) < LIMIT && t.Keys <= issued && FreshIds(ids, issued)
    requires var theirs := Fetched(t, tx)[0].currency; |ids| == |Made(tx, feeCollector, theirs)|
    ensures Value(After(t, tx, feeCollector, Fetched(t, tx)[0].currency, ids), currency) == Value(t, currency)
  {
    AdmittedTotals(c, rules, t, tx, now);
    BalancedConserves(t, tx, feeCollector, ids, issued, Fetched(t, tx)[0].currency, currency);
  }

  // ---------- the bound is sharp ----------

  /** A transaction that pays out all of two tokens and adds a fee: its owner, the two ids and their signatures. */
  datatype Skim = Skim(owner: string, a: string, b: string, sigA: string, sigB: string) {
    function Pile(): Tokens {
      map[a := Utxo(LIMIT - 1, "INR", owner, "", None), b := Utxo(1, "INR", owner, "", None)]
    }

    function AsTx(): Tx {
      Tx(None, [TxIn(a, sigA), TxIn(b, sigB)],
         [Output(LIMIT - 1, "INR", owner, ""), Output(1, "INR", owner, "")], 1, false)
    }

    /** Two tokens, and the node takes the owner's signatures for them. */
    predicate Signed(c: Crypto) {
      a != b && c.verify(owner, TxId(c, AsTx()), a, sigA) && c.verify(owner, TxId(c, AsTx()), b, sigB)
    }
  }

  lemma PileValue(k: Skim)
    requires k.a != k.b
    ensures Value(k.Pile(), "INR") == LIMIT
  {
    var w := ValueWeight(k.Pile(), "INR");
    assert k.Pile().Keys == {k.a, k.b};
    SetSumRemove({k.a, k.b}, w, k.a);
    assert {k.a, k.b} - {k.a} == {k.b};
    SetSumRemove({k.b}, w, k.b);
    assert {k.b} - {k.b} == {};
  }

  lemma SkimInputs(k: Skim)
    requires k.a != k.b
    ensures InputIds(k.AsTx()) == [k.a, k.b] && NoDup(InputIds(k.AsTx())) && Present(k.Pile(), k.AsTx())
    ensures Fetched(k.Pile(), k.AsTx()) == [k.Pile()[k.a], k.Pile()[k.b]]
  {
    assert InputIds(k.AsTx()) == [k.a, k.b];
  }

  lemma SkimSums(k: Skim)
    requires k.a != k.b
    ensures Present(k.Pile(), k.AsTx())
    ensures InAmounts(Fetched(k.Pile(), k.AsTx())) == [LIMIT - 1, 1] && OutAmounts(k.AsTx().outputs) == [LIMIT - 1, 1]
    ensures Sum([LIMIT - 1, 1]) == LIMIT && Balanced(Fetched(k.Pile(), k.AsTx()), k.AsTx().outputs, k.AsTx().fee)
  {
    SkimInputs(k);
    var p: seq<nat> := [LIMIT - 1, 1];
    assert InAmounts(Fetched(k.Pile(), k.AsTx())) == p && OutAmounts(k.AsTx().outputs) == p;
    assert p[..1] == [LIMIT - 1] && p[..1][..0] == [];
    assert Sum(p[..1]) == LIMIT - 1;
    DecSumExact(p);
    Round28JustAbove();
  }

  lemma SkimAdmitted(c: Crypto, rules: Rules, k: Skim)
    requires k.Signed(c)
    ensures Admits(c, rules, k.Pile(), k.AsTx(), 0)
  {
    SkimSums(k);
    SkimInputs(k);
    AcceptedIffSound(c, rules, k.AsTx(), Fetched(k.Pile(), k.AsTx()), 0);
  }

  /** The rounded totals agree, so a cent appears. */
  lemma SkimGains(k: Skim, feeCollector: string, ids: seq<string>, issued: set<string>)
    requires k.a != k.b && |ids| == 3 && FreshIds(ids, issued) && k.Pile().Keys <= issued
    ensures Present(k.Pile(), k.AsTx()) && Fetched(k.Pile(), k.AsTx())[0].currency == "INR"
    ensures Value(After(k.Pile(), k.AsTx(), feeCollector, "INR", ids), "INR") == LIMIT + 1
  {
    SkimInputs(k);
    SkimSums(k);
    PileValue(k);
    ValueAfter(k.Pile(), k.AsTx(), feeCollector, ids, issued, "INR", "INR");
  }

  // ---------- balances and the owner index ----------

  predicate Counts(u: Utxo, owner: string, currency: string, now: int) {
    u.owner == owner && u.currency == currency && (u.expiresAt.None? || u.expiresAt.value > now)
  }

  function Counted(t: Tokens, owner: string, currency: string, now: int, id: string): nat {
    if id in t && Counts(t[id], owner, currency, now) then t[id].amount else 0
  }

  ghost function BalanceWeight(t: Tokens, owner: string, currency: string, now: int): string -> int {
    id => Counted(t, owner, currency, now, id)
  }

  /** The sum of an owner's unexpired tokens of a currency, over all live tokens. */
  ghost function Balance(t: Tokens, owner: string, currency: string, now: int): int {
    SetSum(t.Keys, BalanceWeight(t, owner, currency, now))
  }

  function Owned(t: Tokens, owner: string): set<string> {
    set id | id in t && t[id].owner == owner
  }

  /** The exact inverse of ownership, without empty buckets. */
  function IndexOf(t: Tokens): map<string, set<string>> {
    map owner | owner in (set id | id in t :: t[id].owner) :: Owned(t, owner)
  }

  function Bucket(index: map<string, set<string>>, owner: string): set<string> {
    if owner in index then index[owner] else {}
  }

  lemma BucketIsOwned(t: Tokens, owner: string)
    ensures Bucket(IndexOf(t), owner) == Owned(t, owner)
    ensures owner in IndexOf(t) <==> Owned(t, owner) != {}
  {
    if owner in IndexOf(t) {
      var id :| id in t && t[id].owner == owner;
      assert id in Owned(t, owner);
    } else {
      assert forall id :: id in t ==> t[id].owner in IndexOf(t);
    }
  }

  lemma IndexRemove(t: Tokens, id: string)
    requires id in t
    ensures var o, index, left := t[id].owner, IndexOf(t), Owned(t, t[id].owner) - {id};
            IndexOf(t - {id}) == if left == {} then index - {o} else index[o := left]
  {
    var o, index, left := t[id].owner, IndexOf(t), Owned(t, t[id].owner) - {id};
    var next := if left == {} then index - {o} else index[o := left];
    forall p ensures (p in IndexOf(t - {id}) <==> p in next) && Bucket(IndexOf(t - {id}), p) == Bucket(next, p) {
      BucketIsOwned(t, p);
      BucketIsOwned(t - {id}, p);
      assert Owned(t - {id}, p) == Owned(t, p) - {id};
    }
    assert forall p :: p in next ==> next[p] == Bucket(next, p) && IndexOf(t - {id})[p] == Bucket(IndexOf(t - {id}), p);
  }

  lemma IndexAdd(t: Tokens, id: string, u: Utxo)
    requires id !in t
    ensures IndexOf(t[id := u]) == IndexOf(t)[u.owner := Bucket(IndexOf(t), u.owner) + {id}]
  {
    var t', next := t[id := u], IndexOf(t)[u.owner := Bucket(IndexOf(t), u.owner) + {id}];
    forall p ensures (p in IndexOf(t') <==> p in next) && Bucket(IndexOf(t'), p) == Bucket(next, p) {
      BucketIsOwned(t, p);
      BucketIsOwned(t', p);
      assert Owned(t', p) == Owned(t, p) + if p == u.owner then {id} else {};
    }
    assert forall p :: p in next ==> next[p] == Bucket(next, p) && IndexOf(t')[p] == Bucket(IndexOf(t'), p);
  }

  /** Summing over the owner's bucket gives the balance over all tokens. */
  lemma BalanceOverOwned(t: Tokens, owner: string, currency: string, now: int)
    ensures SetSum(Owned(t, owner), BalanceWeight(t, owner, currency, now)) == Balance(t, owner, currency, now)
  {
    var w, mine := BalanceWeight(t, owner, currency, now), Owned(t, owner);
    SetSumUnion(mine, t.Keys - mine, w);
    SetSumZero(t.Keys - mine, w);
    assert t.Keys == mine + (t.Keys - mine);
  }

  // ---------- balances as decimal sums ----------

  function CountedAmounts(t: Tokens, owner: string, currency: string, now: int, order: seq<string>): seq<nat> {
    seq(|order|, i requires 0 <= i < |order| => Counted(t, owner, currency, now, order[i]))
  }

  /** The total a loop of decimal additions finds when it visits ids in a given order. */
  function RunningBalance(t: Tokens, owner: string, currency: string, now: int, order: seq<string>): nat {
    DecSum(CountedAmounts(t, owner, currency, now, order))
  }

  lemma RunningBalanceSnoc(t: Tokens, owner: string, currency: string, now: int, order: seq<string>, id: string)
    ensures var total := RunningBalance(t, owner, currency, now, order);
            RunningBalance(t, owner, currency, now, order + [id]) ==
              if id in t && Counts(t[id], owner, currency, now) then Round28(total + t[id].amount) else total
  {
    var amounts := CountedAmounts(t, owner, currency, now, order);
    assert CountedAmounts(t, owner, currency, now, order + [id])[..|order|] == amounts;
    DecSumStays(amounts);
  }

  ghost predicate Enumerates(order: seq<string>, ids: set<string>) {
    NoDup(order) && Elems(order) == ids
  }

  lemma EnumeratesMore(order: seq<string>, todo: set<string>, ids: set<string>, id: string)
    requires id in todo && todo <= ids && Enumerates(order, ids - todo)
    ensures Enumerates(order + [id], ids - (todo - {id}))
  {
    assert id !in Elems(order);
    assert Elems(order + [id]) == Elems(order) + {id};
    assert ids - (todo - {id}) == ids - todo + {id};
  }

  /** In any order, the running balance is exact up to 10^28 cents and never below that beyond. */
  lemma RunningBalanceExact(t: Tokens, owner: string, currency: string, now: int, order: seq<string>)
    requires NoDup(order)
    requires SetSum(Elems(order), BalanceWeight(t, owner, currency, now)) == Balance(t, owner, currency, now)
    ensures Balance(t, owner, currency, now) <= LIMIT ==>
              RunningBalance(t, owner, currency, now, order) == Balance(t, owner, currency, now)
    ensures Balance(t, owner, currency, now) >= LIMIT ==> RunningBalance(t, owner, currency, now, order) >= LIMIT
  {
    var amounts := CountedAmounts(t, owner, currency, now, order);
    SetSumOfList(order, BalanceWeight(t, owner, currency, now), amounts);
    DecSumExact(amounts);
  }

  /** Two tokens worth 10^28 cents and one. */
  function Short(a: string, b: string, owner: string): Tokens {
    map[a := Utxo(LIMIT - 1, "INR", owner, "", None), b := Utxo(2, "INR", owner, "", None)]
  }

  /** Whatever their ids and owner, they are reported a cent short. */
  lemma ShortBalance(a: string, b: string, owner: string)
    requires a != b
    ensures Enumerates([a, b], Owned(Short(a, b, owner), owner))
    ensures var t := Short(a, b, owner);
            Balance(t, owner, "INR", 0) == LIMIT + 1 && RunningBalance(t, owner, "INR", 0, [a, b]) == LIMIT
  {
    var t := Short(a, b, owner);
    assert Owned(t, owner) == {a, b} == Elems([a, b]);
    BalanceOverOwned(t, owner, "INR", 0);
    var p := CountedAmounts(t, owner, "INR", 0, [a, b]);
    assert p == [LIMIT - 1, 2];
    SetSumOfList([a, b], BalanceWeight(t, owner, "INR", 0), p);
    assert p[..1] == [LIMIT - 1] && p[..1][..0] == [];
    assert Sum(p[..1]) == LIMIT - 1 && DecSum(p[..1]) == LIMIT - 1;
    Round28JustAbove();
  }

  /** The reported balance is the sum over all unexpired tokens, for every ledger and order of visits
      with balances of at most bound, if and only if bound <= 10^28 cents. */
  lemma BalanceExactIff(bound: nat)
    ensures (forall t: Tokens, owner, currency, now, order :: Balance(t, owner, currency, now) <= bound && Enumerates(order, Owned(t, owner)) ==>
               RunningBalance(t, owner, currency, now, order) == Balance(t, owner, currency, now)) <==> bound <= LIMIT
  {
    if bound <= LIMIT {
      forall t: Tokens, owner, currency, now, order
        | Balance(t, owner, currency, now) <= bound && Enumerates(order, Owned(t, owner))
        ensures RunningBalance(t, owner, currency, now, order) == Balance(t, owner, currency, now)
      {
        BalanceOverOwned(t, owner, currency, now);
        RunningBalanceExact(t, owner, currency, now, order);
      }
    } else {
      UuidsDiffer();
      ShortBalance(ZERO_UUID, ONE_UUID, "");
    }
  }
}
