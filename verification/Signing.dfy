/** What a transfer or burn request signs, and when a signature is accepted. */
module Signing {
  import opened Decimal
  import opened Json
  import opened AuditLog
  import opened AuditChain
  import opened Syntax

  const PREFIX_TX := "HAMILTON_CORE_TX_V1:"
  const PREFIX_BURN := "HAMILTON_CORE_BURN_V1:"

  function SignedOut(o: TxOut): Json {
    Obj([Field("amount", Str(CentsText(o.amount))), Field("receiver_public_key", Str(o.receiver)), Field("token_id", Str(o.tokenId))])
  }

  function SignedOuts(outs: seq<TxOut>): seq<Json> {
    seq(|outs|, i requires 0 <= i < |outs| => SignedOut(outs[i]))
  }

  /** The payload with its keys in sorted order. */
  function SignedJson(p: Payload): Json
    requires !p.Mint?
  {
    match p
    case Transfer(id, network, currency, inputs, outs, signer, at) =>
      Obj([Field("currency", Str(currency)), Field("inputs", Arr(StrList(inputs))), Field("network_id", Str(network)),
           Field("outputs", Arr(SignedOuts(outs))), Field("signed_at", Num(at)),
           Field("signer_public_key", Str(signer)), Field("transaction_id", Str(id))])
    case Burn(ids, network, owner, at) =>
      Obj([Field("network_id", Str(network)), Field("owner_public_key", Str(owner)),
           Field("signed_at", Num(at)), Field("token_ids", Arr(StrList(ids)))])
  }

  function SignedText(p: Payload): string
    requires !p.Mint?
  {
    (if p.Transfer? then PREFIX_TX else PREFIX_BURN) + Print(SignedJson(p), Compact)
  }

  function Signer(p: Payload): string
    requires !p.Mint?
  {
    if p.Transfer? then p.signer else p.owner
  }

  /** A verification function takes a key, a message and a signature. */
  type Verifier = (string, string, string) -> bool

  /** Verification needs a key of 32 bytes and a signature of 64: white space in the text leaves too few. */
  predicate Accepts(verify: Verifier, p: Payload, signature: string)
    requires !p.Mint?
  {
    AllHex(Signer(p), 64) && AllHex(signature, 128) && verify(Signer(p), SignedText(p), signature)
  }

  ghost predicate Signable(verify: Verifier, p: Payload)
    requires !p.Mint?
  {
    exists signature :: Accepts(verify, p, signature)
  }

  lemma SignedOutsInjective(a: seq<TxOut>, b: seq<TxOut>)
    requires SignedOuts(a) == SignedOuts(b)
    ensures a == b
  {
    assert |a| == |SignedOuts(a)| == |b|;
    forall i | 0 <= i < |a| ensures a[i] == b[i] {
      assert SignedOuts(a)[i] == SignedOuts(b)[i];
      var x, y := SignedOut(a[i]).fields, SignedOut(b[i]).fields;
      assert x[0] == y[0] && x[1] == y[1] && x[2] == y[2];
      CentsTextInjective(a[i].amount, b[i].amount);
    }
  }

  lemma SignedJsonInjective(a: Payload, b: Payload)
    requires !a.Mint? && !b.Mint? && SignedJson(a) == SignedJson(b)
    ensures a == b
  {
    var x, y := SignedJson(a).fields, SignedJson(b).fields;
    assert x[0] == y[0] && x[1] == y[1] && x[2] == y[2] && x[3] == y[3];
    if a.Transfer? {
      assert x[4] == y[4] && x[5] == y[5] && x[6] == y[6];
      StrListInjective(a.inputs, b.inputs);
      SignedOutsInjective(a.outputs, b.outputs);
    } else {
      StrListInjective(a.tokenIds, b.tokenIds);
    }
  }

  lemma PrefixOf(p: Payload)
    requires !p.Mint?
    ensures |SignedText(p)| > 14 && (SignedText(p)[14] == 'T' <==> p.Transfer?)
  {
    assert PREFIX_TX[14] == 'T' && PREFIX_BURN[14] == 'B';
  }

  /** A signed message stands for one payload only, its action included. */
  lemma SignedTextInjective(a: Payload, b: Payload)
    requires !a.Mint? && !b.Mint? && SignedText(a) == SignedText(b)
    ensures a == b
  {
    PrefixOf(a);
    PrefixOf(b);
    var prefix := if a.Transfer? then PREFIX_TX else PREFIX_BURN;
    SameCut(prefix, prefix, Print(SignedJson(a), Compact), Print(SignedJson(b), Compact));
    PrintInjective(SignedJson(a), SignedJson(b), Compact);
    SignedJsonInjective(a, b);
  }
}
