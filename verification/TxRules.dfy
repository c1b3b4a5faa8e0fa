/** Tokens, transactions, their canonical text, and the validation both token ledgers perform. */
module TxRules {
  import opened Prelude
  import opened Decimal
  import opened Json

  const MAX_TX_INPUTS := 100
  const MAX_TX_OUTPUTS := 100

  /** A token as a ledger holds it under its id; "" stands for no lock script. */
  datatype Utxo = Utxo(amount: nat, currency: string, owner: string, lockScript: string, expiresAt: Option<int>)

  datatype TxIn = TxIn(tokenId: string, signature: string)

  datatype Output = Output(amount: int, currency: string, owner: string, lockScript: string)

  /** minusZero tells a fee of Decimal("-0.00"), which passes for zero and prints with its sign. */
  datatype Tx = Tx(supplied: Option<string>, inputs: seq<TxIn>, outputs: seq<Output>, fee: int, minusZero: bool)

  /** SHA-256 in hex, and Ed25519 verification of (owner key, transaction id, token id, signature). */
  datatype Crypto = Crypto(hash: string -> string, verify: (string, string, string, string) -> bool)

  datatype Error =
    | Empty | TooMany | NegativeFee | BadAmount | WrongId | DuplicateInputs | AlreadyProcessed | MissingInput
    | MixedCurrency | Expired | Locked | BadSignature | OutputCurrency | Imbalance | Conflict

  /** The two ledgers differ in check order, and only the in-memory one refuses lock scripts. */
  datatype Rules = Memory | Redis

  function InputIds(tx: Tx): seq<string> {
    seq(|tx.inputs|, i requires 0 <= i < |tx.inputs| => tx.inputs[i].tokenId)
  }

  function Positive(x: int): nat {
    if x < 0 then 0 else x
  }

  function OutAmounts(outs: seq<Output>): seq<nat> {
    seq(|outs|, i requires 0 <= i < |outs| => Positive(outs[i].amount))
  }

  function InAmounts(us: seq<Utxo>): seq<nat> {
    seq(|us|, i requires 0 <= i < |us| => us[i].amount)
  }

  // ---------- canonical text ----------

  function AmountText(n: int): string {
    if n < 0 then "-" + CentsText(-n) else CentsText(n)
  }

  function FeeText(tx: Tx): string {
    if tx.fee == 0 && tx.minusZero then "-" + CentsText(0) else AmountText(tx.fee)
  }

  function InputJson(i: TxIn): Json {
    Obj([Field("token_id", Str(i.tokenId))])
  }

  function OutputJson(o: Output): Json {
    Obj([Field("amount", Str(AmountText(o.amount))), Field("currency", Str(o.currency)), Field("owner", Str(o.owner))])
  }

  /** The hashed fields, keys in sorted order. */
  function CanonicalJson(tx: Tx): Json {
    Obj([Field("fee", Str(FeeText(tx))),
         Field("inputs", Arr(seq(|tx.inputs|, i requires 0 <= i < |tx.inputs| => InputJson(tx.inputs[i])))),
         Field("outputs", Arr(seq(|tx.outputs|, i requires 0 <= i < |tx.outputs| => OutputJson(tx.outputs[i]))))])
  }

  function Canonical(tx: Tx): string {
    Print(CanonicalJson(tx), Compact)
  }

  function TxId(c: Crypto, tx: Tx): string {
    c.hash(Canonical(tx))
  }

  predicate SameFee(a: Tx, b: Tx) {
    a.fee == b.fee && (a.fee == 0 ==> a.minusZero == b.minusZero)
  }

  /** The fields the transaction id covers: input ids, amounts, currencies, owners and fee, all in order. */
  ghost predicate SameIntent(a: Tx, b: Tx) {
    && SameFee(a, b) && InputIds(a) == InputIds(b) && |a.outputs| == |b.outputs|
    && forall i :: 0 <= i < |a.outputs| ==>
      a.outputs[i] == b.outputs[i].(lockScript := a.outputs[i].lockScript)
  }

  lemma AmountTextInjective(a: int, b: int)
    requires AmountText(a) == AmountText(b)
    ensures a == b
  {
    var s, t := AmountText(a), AmountText(b);
    AmountSign(a);
    AmountSign(b);
    if a < 0 {
      assert s[1..] == CentsText(-a) && t[1..] == CentsText(-b);
      CentsTextInjective(-a, -b);
    } else {
      CentsTextInjective(a, b);
    }
  }

  lemma AmountSign(a: int)
    ensures AmountText(a) != [] && (AmountText(a)[0] == '-' <==> a < 0)
  {
    if a >= 0 {
      assert CentsText(a)[0] == NatText(a / 100)[0];
    }
  }

  lemma FeeTextIff(a: Tx, b: Tx)
    ensures FeeText(a) == FeeText(b) <==> SameFee(a, b)
  {
    if (a.fee == 0 && a.minusZero) || (b.fee == 0 && b.minusZero) {
      if FeeText(a) == FeeText(b) {
        AmountSign(a.fee);
        AmountSign(b.fee);
        assert FeeText(a)[0] == FeeText(b)[0] == '-';
        MinusInjective(a, b);
      }
    } else if FeeText(a) == FeeText(b) {
      AmountTextInjective(a.fee, b.fee);
    }
  }

  lemma MinusInjective(a: Tx, b: Tx)
    requires FeeText(a) == FeeText(b) && FeeText(a)[0] == '-'
    requires a.fee <= 0 && b.fee <= 0 && (a.fee == 0 ==> a.minusZero) && (b.fee == 0 ==> b.minusZero)
    ensures a.fee == b.fee
  {
    assert FeeText(a)[1..] == CentsText(-a.fee) && FeeText(b)[1..] == CentsText(-b.fee);
    CentsTextInjective(-a.fee, -b.fee);
  }

  lemma OutputJsonInjective(a: Output, b: Output)
    requires OutputJson(a) == OutputJson(b)
    ensures a == b.(lockScript := a.lockScript)
  {
    var x, y := OutputJson(a).fields, OutputJson(b).fields;
    assert x[0] == y[0] && x[1] == y[1] && x[2] == y[2];
    AmountTextInjective(a.amount, b.amount);
  }

  lemma CanonicalJsonInjective(a: Tx, b: Tx)
    requires CanonicalJson(a) == CanonicalJson(b)
    ensures SameIntent(a, b)
  {
    var x, y := CanonicalJson(a).fields, CanonicalJson(b).fields;
    assert x[0] == y[0] && x[1] == y[1] && x[2] == y[2];
    FeeTextIff(a, b);
    var ai, bi := x[1].value.items, y[1].value.items;
    assert |ai| == |a.inputs| && |bi| == |b.inputs|;
    forall i | 0 <= i < |a.inputs| ensures InputIds(a)[i] == InputIds(b)[i] {
      assert InputJson(a.inputs[i]) == ai[i] == bi[i] == InputJson(b.inputs[i]);
      assert InputJson(a.inputs[i]).fields[0] == InputJson(b.inputs[i]).fields[0];
    }
    assert InputIds(a) == InputIds(b);
    var ao, bo := x[2].value.items, y[2].value.items;
    assert |ao| == |a.outputs| && |bo| == |b.outputs|;
    forall i | 0 <= i < |a.outputs| ensures a.outputs[i] == b.outputs[i].(lockScript := a.outputs[i].lockScript) {
      assert OutputJson(a.outputs[i]) == ao[i] == bo[i] == OutputJson(b.outputs[i]);
      OutputJsonInjective(a.outputs[i], b.outputs[i]);
    }
  }

  lemma SameIntentSameJson(a: Tx, b: Tx)
    requires SameIntent(a, b)
    ensures CanonicalJson(a) == CanonicalJson(b)
  {
    FeeTextIff(a, b);
    assert |a.inputs| == |InputIds(a)| == |b.inputs|;
    forall i | 0 <= i < |a.inputs| ensures InputJson(a.inputs[i]) == InputJson(b.inputs[i]) {
      assert InputIds(a)[i] == InputIds(b)[i];
    }
    assert seq(|a.inputs|, i requires 0 <= i < |a.inputs| => InputJson(a.inputs[i])) ==
           seq(|b.inputs|, i requires 0 <= i < |b.inputs| => InputJson(b.inputs[i]));
    assert seq(|a.outputs|, i requires 0 <= i < |a.outputs| => OutputJson(a.outputs[i])) ==
           seq(|b.outputs|, i requires 0 <= i < |b.outputs| => OutputJson(b.outputs[i]));
  }

  /** Two transactions have the same canonical text exactly when they agree on the covered fields;
      lock scripts and signatures are not among them, and a fee of zero keeps its sign. */
  lemma CanonicalIff(a: Tx, b: Tx)
    ensures Canonical(a) == Canonical(b) <==> SameIntent(a, b)
  {
    if Canonical(a) == Canonical(b) {
      PrintInjective(CanonicalJson(a), CanonicalJson(b), Compact);
      CanonicalJsonInjective(a, b);
    }
    if SameIntent(a, b) {
      SameIntentSameJson(a, b);
    }
  }

  // ---------- checks before the inputs are read ----------

  function IdCheck(c: Crypto, tx: Tx): Option<Error> {
    if tx.supplied.Some? && tx.supplied.value != "" && tx.supplied.value != TxId(c, tx) then Some(WrongId) else None
  }

  function PreCheck(c: Crypto, rules: Rules, tx: Tx): Option<Error> {
    if tx.inputs == [] || tx.outputs == [] then Some(Empty)
    else if |tx.inputs| > MAX_TX_INPUTS || |tx.outputs| > MAX_TX_OUTPUTS then Some(TooMany)
    else if rules.Memory? then
      if tx.fee < 0 then Some(NegativeFee)
      else if exists i :: 0 <= i < |tx.outputs| && tx.outputs[i].amount <= 0 then Some(BadAmount)
      else if IdCheck(c, tx).Some? then IdCheck(c, tx)
      else if !NoDup(InputIds(tx)) then Some(DuplicateInputs) else None
    else
      if !NoDup(InputIds(tx)) then Some(DuplicateInputs) else IdCheck(c, tx)
  }

  // ---------- validation against the inputs read ----------

  function InputError(c: Crypto, rules: Rules, txId: string, tx: Tx, fetched: seq<Utxo>, now: int, i: nat): Option<Error>
    requires i < |fetched| == |tx.inputs|
  {
    var u := fetched[i];
    if u.currency != fetched[0].currency then Some(MixedCurrency)
    else if u.expiresAt.Some? && u.expiresAt.value < now then Some(Expired)
    else if rules.Memory? && u.lockScript != "" then Some(Locked)
    else if !c.verify(u.owner, txId, tx.inputs[i].tokenId, tx.inputs[i].signature) then Some(BadSignature)
    else None
  }

  function OutputError(rules: Rules, out: Output, currency: string): Option<Error> {
    if out.currency != currency then Some(OutputCurrency)
    else if rules.Redis? && out.amount <= 0 then Some(BadAmount)
    else None
  }

  function FirstInputError(c: Crypto, rules: Rules, txId: string, tx: Tx, fetched: seq<Utxo>, now: int, i: nat): (r: Option<Error>)
    requires i <= |fetched| == |tx.inputs|
    ensures r.None? <==> forall k :: i <= k < |fetched| ==> InputError(c, rules, txId, tx, fetched, now, k).None?
    decreases |fetched| - i
  {
    if i == |fetched| then None else
      var e := InputError(c, rules, txId, tx, fetched, now, i);
      if e.Some? then e else FirstInputError(c, rules, txId, tx, fetched, now, i + 1)
  }

  function FirstOutputError(rules: Rules, outs: seq<Output>, currency: string, i: nat): (r: Option<Error>)
    requires i <= |outs|
    ensures r.None? <==> forall k :: i <= k < |outs| ==> OutputError(rules, outs[k], currency).None?
    decreases |outs| - i
  {
    if i == |outs| then None else
      var e := OutputError(rules, outs[i], currency);
      if e.Some? then e else FirstOutputError(rules, outs, currency, i + 1)
  }

  /** The value rule, totals taken as 28-digit decimal sums. */
  predicate Balanced(fetched: seq<Utxo>, outs: seq<Output>, fee: int) {
    DecSum(InAmounts(fetched)) == Round28(DecSum(OutAmounts(outs)) + Positive(fee))
  }

  function IntentError(c: Crypto, rules: Rules, txId: string, tx: Tx, fetched: seq<Utxo>, now: int): Option<Error>
    requires 0 < |fetched| == |tx.inputs|
  {
    var i := FirstInputError(c, rules, txId, tx, fetched, now, 0);
    if i.Some? then i else
      var o := FirstOutputError(rules, tx.outputs, fetched[0].currency, 0);
      if o.Some? then o
      else if rules.Redis? && tx.fee < 0 then Some(NegativeFee)
      else if !Balanced(fetched, tx.outputs, tx.fee) then Some(Imbalance)
      else None
  }

  /** What acceptance means, whatever the order of the checks. */
  predicate Sound(c: Crypto, rules: Rules, tx: Tx, fetched: seq<Utxo>, now: int)
    requires 0 < |fetched| == |tx.inputs|
  {
    && |tx.inputs| <= 100 && 0 < |tx.outputs| <= 100 && tx.fee >= 0 && NoDup(InputIds(tx))
    && IdCheck(c, tx).None?
    && (forall i :: 0 <= i < |fetched| ==>
          && fetched[i].currency == fetched[0].currency
          && (fetched[i].expiresAt.Some? ==> now <= fetched[i].expiresAt.value)
          && (rules.Memory? ==> fetched[i].lockScript == "")
          && c.verify(fetched[i].owner, TxId(c, tx), tx.inputs[i].tokenId, tx.inputs[i].signature))
    && (forall i :: 0 <= i < |tx.outputs| ==> tx.outputs[i].amount > 0 && tx.outputs[i].currency == fetched[0].currency)
    && Balanced(fetched, tx.outputs, tx.fee)
  }

  lemma {:induction false} AcceptedIffSound(c: Crypto, rules: Rules, tx: Tx, fetched: seq<Utxo>, now: int)
    requires 0 < |fetched| == |tx.inputs|
    ensures PreCheck(c, rules, tx).None? && IntentError(c, rules, TxId(c, tx), tx, fetched, now).None?
            <==> Sound(c, rules, tx, fetched, now)
  {
    var h := TxId(c, tx);
    forall i | 0 <= i < |fetched|
      ensures InputError(c, rules, h, tx, fetched, now, i).None? <==>
              && fetched[i].currency == fetched[0].currency
              && (fetched[i].expiresAt.Some? ==> now <= fetched[i].expiresAt.value)
              && (rules.Memory? ==> fetched[i].lockScript == "")
              && c.verify(fetched[i].owner, h, tx.inputs[i].tokenId, tx.inputs[i].signature)
    {
    }
    assert forall i :: 0 <= i < |tx.outputs| ==> (OutputError(rules, tx.outputs[i], fetched[0].currency).None? <==>
      tx.outputs[i].currency == fetched[0].currency && (rules.Redis? ==> tx.outputs[i].amount > 0));
  }

  // ---------- which error is reported ----------

  /** What the checks before the inputs are read look for. */
  predicate PreWrong(c: Crypto, rules: Rules, tx: Tx, e: Error) {
    match e
    case Empty => tx.inputs == [] || tx.outputs == []
    case TooMany => |tx.inputs| > 100 || |tx.outputs| > 100
    case NegativeFee => rules.Memory? && tx.fee < 0
    case BadAmount => rules.Memory? && exists o :: o in tx.outputs && o.amount <= 0
    case WrongId => tx.supplied.Some? && tx.supplied.value != "" && tx.supplied.value != c.hash(Canonical(tx))
    case DuplicateInputs => exists i, j :: 0 <= i < j < |tx.inputs| && tx.inputs[i].tokenId == tx.inputs[j].tokenId
    case _ => false
  }

  /** In which order. */
  function PreRank(rules: Rules, e: Error): nat {
    match e
    case Empty => 0
    case TooMany => 1
    case NegativeFee => 2
    case BadAmount => 3
    case WrongId => if rules.Memory? then 4 else 5
    case DuplicateInputs => if rules.Memory? then 5 else 4
    case _ => 6
  }

  lemma DuplicatesIff(tx: Tx)
    ensures !NoDup(InputIds(tx)) <==> exists i, j :: 0 <= i < j < |tx.inputs| && tx.inputs[i].tokenId == tx.inputs[j].tokenId
  {
    assert forall i :: 0 <= i < |tx.inputs| ==> InputIds(tx)[i] == tx.inputs[i].tokenId;
  }

  lemma NonPositiveIff(tx: Tx)
    ensures (exists i :: 0 <= i < |tx.outputs| && tx.outputs[i].amount <= 0) <==> exists o :: o in tx.outputs && o.amount <= 0
  {
    if i :| 0 <= i < |tx.outputs| && tx.outputs[i].amount <= 0 {
      assert tx.outputs[i] in tx.outputs;
    }
  }

  /** The early checks report the first of these that is wrong, and nothing exactly when none is. */
  lemma PreCheckReports(c: Crypto, rules: Rules, tx: Tx)
    ensures var r := PreCheck(c, rules, tx);
            && (r.Some? ==> PreWrong(c, rules, tx, r.value))
            && forall e: Error :: (r.Some? ==> PreRank(rules, e) < PreRank(rules, r.value)) ==> !PreWrong(c, rules, tx, e)
  {
    DuplicatesIff(tx);
    NonPositiveIff(tx);
  }

  /** One input as it must be: of the first one's currency, unexpired, unlocked where locks count, and signed. */
  predicate InputRight(c: Crypto, rules: Rules, tx: Tx, fetched: seq<Utxo>, now: int, i: nat)
    requires i < |fetched| == |tx.inputs|
  {
    var u := fetched[i];
    && u.currency == fetched[0].currency && (u.expiresAt.Some? ==> now <= u.expiresAt.value)
    && (rules.Memory? ==> u.lockScript == "") && c.verify(u.owner, c.hash(Canonical(tx)), tx.inputs[i].tokenId, tx.inputs[i].signature)
  }

  /** What an input error says; each presupposes that the ones before it do not apply. */
  predicate InputWrong(c: Crypto, rules: Rules, tx: Tx, fetched: seq<Utxo>, now: int, i: nat, e: Error)
    requires i < |fetched| == |tx.inputs|
  {
    var u := fetched[i];
    var mixed, late := u.currency != fetched[0].currency, u.expiresAt.Some? && u.expiresAt.value < now;
    var shut := rules.Memory? && u.lockScript != "";
    match e
    case MixedCurrency => mixed
    case Expired => !mixed && late
    case Locked => !mixed && !late && shut
    case BadSignature =>
      !mixed && !late && !shut && !c.verify(u.owner, c.hash(Canonical(tx)), tx.inputs[i].tokenId, tx.inputs[i].signature)
    case _ => false
  }

  predicate OutputRight(rules: Rules, o: Output, currency: string) {
    o.currency == currency && (rules.Redis? ==> o.amount > 0)
  }

  predicate OutputWrong(rules: Rules, o: Output, currency: string, e: Error) {
    match e
    case OutputCurrency => o.currency != currency
    case BadAmount => o.currency == currency && rules.Redis? && o.amount <= 0
    case _ => false
  }

  lemma {:induction false} FirstInputIs(c: Crypto, rules: Rules, tx: Tx, fetched: seq<Utxo>, now: int, from: nat, i: nat, e: Error)
    requires from <= i < |fetched| == |tx.inputs| && InputWrong(c, rules, tx, fetched, now, i, e)
    requires forall j :: from <= j < i ==> InputRight(c, rules, tx, fetched, now, j)
    ensures FirstInputError(c, rules, TxId(c, tx), tx, fetched, now, from) == Some(e)
    decreases i - from
  {
    if from < i {
      assert InputRight(c, rules, tx, fetched, now, from);
      FirstInputIs(c, rules, tx, fetched, now, from + 1, i, e);
    }
  }

  lemma {:induction false} FirstOutputIs(rules: Rules, outs: seq<Output>, currency: string, from: nat, i: nat, e: Error)
    requires from <= i < |outs| && OutputWrong(rules, outs[i], currency, e)
    requires forall j :: from <= j < i ==> OutputRight(rules, outs[j], currency)
    ensures FirstOutputError(rules, outs, currency, from) == Some(e)
    decreases i - from
  {
    if from < i {
      FirstOutputIs(rules, outs, currency, from + 1, i, e);
    }
  }

  lemma RightMeansNone(c: Crypto, rules: Rules, tx: Tx, fetched: seq<Utxo>, now: int)
    requires 0 < |fetched| == |tx.inputs|
    ensures (forall i :: 0 <= i < |fetched| ==> InputRight(c, rules, tx, fetched, now, i)) ==>
              FirstInputError(c, rules, TxId(c, tx), tx, fetched, now, 0).None?
    ensures (forall o :: o in tx.outputs ==> OutputRight(rules, o, fetched[0].currency)) ==>
              FirstOutputError(rules, tx.outputs, fetched[0].currency, 0).None?
  {
    assert forall i :: 0 <= i < |fetched| && InputRight(c, rules, tx, fetched, now, i) ==>
      InputError(c, rules, TxId(c, tx), tx, fetched, now, i).None?;
    assert forall i :: 0 <= i < |tx.outputs| ==> tx.outputs[i] in tx.outputs;
  }

  ghost predicate FirstWrongInput(c: Crypto, rules: Rules, tx: Tx, fetched: seq<Utxo>, now: int, i: nat, e: Error)
    requires |fetched| == |tx.inputs|
  {
    && i < |fetched| && InputWrong(c, rules, tx, fetched, now, i, e)
    && forall j :: 0 <= j < i ==> InputRight(c, rules, tx, fetched, now, j)
  }

  ghost predicate FirstWrongOutput(rules: Rules, outs: seq<Output>, currency: string, i: nat, e: Error) {
    && i < |outs| && OutputWrong(rules, outs[i], currency, e)
    && forall j :: 0 <= j < i ==> OutputRight(rules, outs[j], currency)
  }

  /** Validation reports the first wrong input, else the first wrong output, else a negative fee, else an imbalance. */
  lemma ValidationReports(c: Crypto, rules: Rules, tx: Tx, fetched: seq<Utxo>, now: int)
    requires 0 < |fetched| == |tx.inputs|
    ensures var r := IntentError(c, rules, TxId(c, tx), tx, fetched, now);
            var currency := fetched[0].currency;
            var inputsRight := forall i :: 0 <= i < |fetched| ==> InputRight(c, rules, tx, fetched, now, i);
            var outputsRight := forall o :: o in tx.outputs ==> OutputRight(rules, o, currency);
            && (forall i, e :: FirstWrongInput(c, rules, tx, fetched, now, i, e) ==> r == Some(e))
            && (inputsRight ==> forall i, e :: FirstWrongOutput(rules, tx.outputs, currency, i, e) ==> r == Some(e))
            && (inputsRight && outputsRight ==>
                  if rules.Redis? && tx.fee < 0 then r == Some(NegativeFee)
                  else r == if Balanced(fetched, tx.outputs, tx.fee) then None else Some(Imbalance))
  {
    forall i, e | FirstWrongInput(c, rules, tx, fetched, now, i, e)
      ensures FirstInputError(c, rules, TxId(c, tx), tx, fetched, now, 0) == Some(e)
    {
      FirstInputIs(c, rules, tx, fetched, now, 0, i, e);
    }
    forall i, e | FirstWrongOutput(rules, tx.outputs, fetched[0].currency, i, e)
      ensures FirstOutputError(rules, tx.outputs, fetched[0].currency, 0) == Some(e)
    {
      FirstOutputIs(rules, tx.outputs, fetched[0].currency, 0, i, e);
    }
    RightMeansNone(c, rules, tx, fetched, now);
  }

  method CheckInputs(c: Crypto, rules: Rules, txId: string, tx: Tx, fetched: seq<Utxo>, now: int)
    returns (error: Option<Error>, total: nat)
    requires 0 < |fetched| == |tx.inputs|
    ensures error == FirstInputError(c, rules, txId, tx, fetched, now, 0)
    ensures error.None? ==> total == DecSum(InAmounts(fetched))
  {
    var target := fetched[0].currency;
    total := 0;
    for i := 0 to |tx.inputs|
      invariant FirstInputError(c, rules, txId, tx, fetched, now, 0) == FirstInputError(c, rules, txId, tx, fetched, now, i)
      invariant total == DecSum(InAmounts(fetched[..i]))
    {
      var u := fetched[i];
      if u.currency != target {
        return Some(MixedCurrency), total;
      }
      if u.expiresAt.Some? && u.expiresAt.value < now {
        return Some(Expired), total;
      }
      if rules.Memory? && u.lockScript != "" {
        return Some(Locked), total;
      }
      assert InAmounts(fetched[..i + 1])[..i] == InAmounts(fetched[..i]);
      total := Round28(total + u.amount);
      if !c.verify(u.owner, txId, tx.inputs[i].tokenId, tx.inputs[i].signature) {
        return Some(BadSignature), total;
      }
    }
    assert fetched[..|tx.inputs|] == fetched;
    error := None;
  }

  method CheckOutputs(rules: Rules, outs: seq<Output>, target: string) returns (error: Option<Error>, total: nat)
    ensures error == FirstOutputError(rules, outs, target, 0)
    ensures error.None? ==> total == DecSum(OutAmounts(outs))
  {
    total := 0;
    for i := 0 to |outs|
      invariant FirstOutputError(rules, outs, target, 0) == FirstOutputError(rules, outs, target, i)
      invariant total == DecSum(OutAmounts(outs[..i]))
    {
      if outs[i].currency != target {
        return Some(OutputCurrency), total;
      }
      if rules.Redis? && outs[i].amount <= 0 {
        return Some(BadAmount), total;
      }
      assert OutAmounts(outs[..i + 1])[..i] == OutAmounts(outs[..i]);
      total := Round28(total + Positive(outs[i].amount));
    }
    assert outs[..|outs|] == outs;
    error := None;
  }

  /** The validation of one ledger: inputs, then outputs, then the balance. */
  method ValidateTxIntent(c: Crypto, rules: Rules, txId: string, tx: Tx, fetched: seq<Utxo>, now: int)
    returns (error: Option<Error>)
    requires 0 < |fetched| == |tx.inputs|
    ensures error == IntentError(c, rules, txId, tx, fetched, now)
  {
    var totalIn, totalOut;
    error, totalIn := CheckInputs(c, rules, txId, tx, fetched, now);
    if error.Some? {
      return;
    }
    error, totalOut := CheckOutputs(rules, tx.outputs, fetched[0].currency);
    if error.Some? {
      return;
    }
    if rules.Redis? && tx.fee < 0 {
      return Some(NegativeFee);
    }
    if totalIn != Round28(totalOut + Positive(tx.fee)) {
      return Some(Imbalance);
    }
  }
}
