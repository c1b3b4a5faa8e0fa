/** The texts that are hashed, signed and stored, character by character, and how an escaped string reads back. */
module Texts {
  import opened Decimal
  import opened Json
  import opened AuditLog
  import opened AuditChain
  import opened Signing
  import opened TxRules

  // ---------- reading an escaped string ----------

  function HexDigitValue(c: char): nat {
    if '0' <= c <= '9' then c as int - '0' as int
    else if 'a' <= c <= 'f' then 10 + (c as int - 'a' as int)
    else if 'A' <= c <= 'F' then 10 + (c as int - 'A' as int)
    else 0
  }

  function HexNumber(t: string): nat {
    if t == [] then 0 else 16 * HexNumber(t[..|t| - 1]) + HexDigitValue(t[|t| - 1])
  }

  function Scalar(n: int): char {
    if 0 <= n < 0xD800 || 0xE000 <= n < 0x11_0000 then n as char else ' '
  }

  /** What follows a backslash, if it is not a 'u' (section 7 of RFC 8259). */
  function Escaped(c: char): char {
    match c
    case 'n' => '\n'
    case 'r' => '\r'
    case 't' => '\t'
    case 'b' => 8 as char
    case 'f' => 12 as char
    case _ => c
  }

  /** The string that the text between the quotes stands for; characters beyond 16 bits come as surrogate pairs. */
  function Unescape(t: string): string {
    if t == [] then ""
    else if t[0] != '\\' then [t[0]] + Unescape(t[1..])
    else if |t| < 2 then ""
    else if t[1] != 'u' then [Escaped(t[1])] + Unescape(t[2..])
    else if |t| < 6 then ""
    else
      var n := HexNumber(t[2..6]);
      if 0xD800 <= n < 0xDC00 && |t| >= 12 then
        [Scalar(0x10000 + 0x400 * (n - 0xD800) + (HexNumber(t[8..12]) - 0xDC00))] + Unescape(t[12..])
      else [Scalar(n)] + Unescape(t[6..])
  }

  lemma HexDigitReads(d: nat)
    requires d < 16
    ensures HexDigitValue(HexDigit(d)) == d
  {
  }

  lemma HexReads(n: nat)
    requires n < 0x10000
    ensures HexNumber(Hex4(n)) == n
  {
    var t := Hex4(n);
    HexDigitReads(n / 0x1000);
    HexDigitReads(n / 0x100 % 0x10);
    HexDigitReads(n / 0x10 % 0x10);
    HexDigitReads(n % 0x10);
    assert t[..3][..2] == t[..2] && t[..2][..1] == t[..1] && t[..1][..0] == [];
    assert HexNumber(t[..1]) == n / 0x1000;
    assert HexNumber(t[..2]) == 16 * HexNumber(t[..1]) + n / 0x100 % 0x10;
    assert HexNumber(t[..3]) == 16 * HexNumber(t[..2]) + n / 0x10 % 0x10;
    HexValueOf(n);
  }

  lemma CharReads(c: char, rest: string)
    ensures Unescape(EscapeChar(c) + rest) == [c] + Unescape(rest)
  {
    var n, t := c as int, EscapeChar(c) + rest;
    assert t[|EscapeChar(c)|..] == rest;
    if Long(c) {
      LongShape(c);
      if n < 0x10000 {
        assert t[2..6] == Hex4(n);
        HexReads(n);
      } else {
        assert t[..6] == EscapeChar(c)[..6] && t[2..6] == Hex4(HighSurrogate(n)) && t[8..12] == Hex4(LowSurrogate(n));
        HexReads(HighSurrogate(n));
        HexReads(LowSurrogate(n));
      }
    }
  }

  /** Every string is read back from its escaped text. */
  lemma {:induction false} EscapeReads(s: string)
    ensures Unescape(Escape(s)) == s
  {
    if s != [] {
      CharReads(s[0], Escape(s[1..]));
      EscapeReads(s[1..]);
      assert s == [s[0]] + s[1..];
    }
  }

  /** Printable characters other than the quote and the backslash are left as they are. */
  lemma {:induction false} EscapePlain(s: string)
    requires forall i :: 0 <= i < |s| ==> ' ' <= s[i] <= '~' && s[i] != '"' && s[i] != '\\'
    ensures Escape(s) == s
  {
    if s != [] {
      EscapePlain(s[1..]);
      assert s == [s[0]] + s[1..];
    }
  }

  // ---------- layout ----------

  function Join(parts: seq<string>, separator: string): string {
    if parts == [] then "" else if |parts| == 1 then parts[0] else parts[0] + separator + Join(parts[1..], separator)
  }

  function CommaOf(st: Style): string {
    if st.Compact? then "," else ", "
  }

  function ColonOf(st: Style): string {
    if st.Compact? then ":" else ": "
  }

  lemma {:induction false} ItemsJoin(items: seq<Json>, texts: seq<string>, st: Style)
    requires |texts| == |items| && forall i :: 0 <= i < |items| ==> Print(items[i], st) == texts[i]
    ensures PrintItems(items, st) == Join(texts, CommaOf(st))
  {
    if |items| > 1 {
      ItemsJoin(items[1..], texts[1..], st);
    }
  }

  lemma ItemsText(items: seq<Json>, texts: seq<string>, st: Style)
    requires |texts| == |items| && forall i :: 0 <= i < |items| ==> Print(items[i], st) == texts[i]
    ensures Print(Arr(items), st) == "[" + Join(texts, CommaOf(st)) + "]"
  {
    ItemsJoin(items, texts, st);
  }

  /** A key and its value. */
  function Named(key: string, value: string, st: Style): string {
    Quote(key) + ColonOf(st) + value
  }

  lemma {:induction false} FieldsJoin(fields: seq<Field>, texts: seq<string>, st: Style)
    requires |texts| == |fields|
    requires forall i :: 0 <= i < |fields| ==> texts[i] == Named(fields[i].key, Print(fields[i].value, st), st)
    ensures PrintFields(fields, st) == Join(texts, CommaOf(st))
  {
    if |fields| > 1 {
      FieldsJoin(fields[1..], texts[1..], st);
    }
  }

  lemma FieldsText(fields: seq<Field>, texts: seq<string>, st: Style)
    requires |texts| == |fields|
    requires forall i :: 0 <= i < |fields| ==> texts[i] == Named(fields[i].key, Print(fields[i].value, st), st)
    ensures Print(Obj(fields), st) == "{" + Join(texts, CommaOf(st)) + "}"
  {
    FieldsJoin(fields, texts, st);
  }

  function FieldOf(f: Field, st: Style): string {
    Named(f.key, Print(f.value, st), st)
  }

  lemma Fields3(a: Field, b: Field, c: Field, st: Style)
    ensures Print(Obj([a, b, c]), st) == "{" + Join([FieldOf(a, st), FieldOf(b, st), FieldOf(c, st)], CommaOf(st)) + "}"
  {
    FieldsText([a, b, c], [FieldOf(a, st), FieldOf(b, st), FieldOf(c, st)], st);
  }

  lemma Fields4(a: Field, b: Field, c: Field, d: Field, st: Style)
    ensures Print(Obj([a, b, c, d]), st) == "{" + Join([FieldOf(a, st), FieldOf(b, st), FieldOf(c, st), FieldOf(d, st)], CommaOf(st)) + "}"
  {
    FieldsText([a, b, c, d], [FieldOf(a, st), FieldOf(b, st), FieldOf(c, st), FieldOf(d, st)], st);
  }

  lemma Fields7(a: Field, b: Field, c: Field, d: Field, e: Field, f: Field, g: Field, st: Style)
    ensures Print(Obj([a, b, c, d, e, f, g]), st) == "{" + Join([FieldOf(a, st), FieldOf(b, st), FieldOf(c, st), FieldOf(d, st),
              FieldOf(e, st), FieldOf(f, st), FieldOf(g, st)], CommaOf(st)) + "}"
  {
    FieldsText([a, b, c, d, e, f, g], [FieldOf(a, st), FieldOf(b, st), FieldOf(c, st), FieldOf(d, st),
               FieldOf(e, st), FieldOf(f, st), FieldOf(g, st)], st);
  }

  /** A text that needs no escapes, between quotes. */
  function Plainly(t: string): string {
    "\"" + t + "\""
  }

  /** Amounts are digits, a point and a sign. */
  lemma AmountPlain(n: nat)
    ensures Quote(CentsText(n)) == Plainly(CentsText(n)) && Quote("-" + CentsText(n)) == Plainly("-" + CentsText(n))
  {
    EscapePlain(CentsText(n));
    EscapePlain("-" + CentsText(n));
  }

  lemma FeePlain(tx: Tx)
    ensures Quote(FeeText(tx)) == Plainly(FeeText(tx))
  {
    if tx.fee < 0 {
      AmountPlain(-tx.fee);
    } else {
      AmountPlain(tx.fee);
      AmountPlain(0);
    }
  }

  lemma OutputPlain(o: Output)
    ensures Quote(AmountText(o.amount)) == Plainly(AmountText(o.amount))
  {
    if o.amount < 0 {
      AmountPlain(-o.amount);
    } else {
      AmountPlain(o.amount);
    }
  }

  // ---------- the hashed text of a transaction ----------

  function InputTextOf(i: TxIn): string {
    "{" + Join([Named("token_id", Quote(i.tokenId), Compact)], ",") + "}"
  }

  function OutputTextOf(o: Output): string {
    "{" + Join([Named("amount", Plainly(AmountText(o.amount)), Compact), Named("currency", Quote(o.currency), Compact),
                Named("owner", Quote(o.owner), Compact)], ",") + "}"
  }

  lemma InputLayout(i: TxIn)
    ensures Print(InputJson(i), Compact) == InputTextOf(i)
  {
    FieldsText(InputJson(i).fields, [Named("token_id", Quote(i.tokenId), Compact)], Compact);
  }

  lemma OutputLayout(o: Output)
    ensures Print(OutputJson(o), Compact) == OutputTextOf(o)
  {
    OutputPlain(o);
    Fields3(Field("amount", Str(AmountText(o.amount))), Field("currency", Str(o.currency)), Field("owner", Str(o.owner)), Compact);
  }

  function InputTexts(ins: seq<TxIn>): seq<string> {
    seq(|ins|, i requires 0 <= i < |ins| => InputTextOf(ins[i]))
  }

  function OutputTexts(outs: seq<Output>): seq<string> {
    seq(|outs|, i requires 0 <= i < |outs| => OutputTextOf(outs[i]))
  }

  lemma InputsLayout(ins: seq<TxIn>, items: seq<Json>)
    requires |items| == |ins| && forall i :: 0 <= i < |ins| ==> items[i] == InputJson(ins[i])
    ensures Print(Arr(items), Compact) == "[" + Join(InputTexts(ins), ",") + "]"
  {
    forall i | 0 <= i < |ins| ensures Print(items[i], Compact) == InputTexts(ins)[i] {
      InputLayout(ins[i]);
    }
    ItemsText(items, InputTexts(ins), Compact);
  }

  lemma OutputsLayout(outs: seq<Output>, items: seq<Json>)
    requires |items| == |outs| && forall i :: 0 <= i < |outs| ==> items[i] == OutputJson(outs[i])
    ensures Print(Arr(items), Compact) == "[" + Join(OutputTexts(outs), ",") + "]"
  {
    forall i | 0 <= i < |outs| ensures Print(items[i], Compact) == OutputTexts(outs)[i] {
      OutputLayout(outs[i]);
    }
    ItemsText(items, OutputTexts(outs), Compact);
  }

  /** The text that is hashed: fee, input ids, and amount, currency and owner of each output, without spaces. */
  lemma CanonicalLayout(tx: Tx)
    ensures Canonical(tx) == "{" + Join([
      Named("fee", Plainly(FeeText(tx)), Compact),
      Named("inputs", "[" + Join(InputTexts(tx.inputs), ",") + "]", Compact),
      Named("outputs", "[" + Join(OutputTexts(tx.outputs), ",") + "]", Compact)], ",") + "}"
  {
    var ins := Arr(seq(|tx.inputs|, i requires 0 <= i < |tx.inputs| => InputJson(tx.inputs[i])));
    var outs := Arr(seq(|tx.outputs|, i requires 0 <= i < |tx.outputs| => OutputJson(tx.outputs[i])));
    FeePlain(tx);
    InputsLayout(tx.inputs, ins.items);
    OutputsLayout(tx.outputs, outs.items);
    Fields3(Field("fee", Str(FeeText(tx))), Field("inputs", ins), Field("outputs", outs), Compact);
  }

  /** A fee is written like any amount, except that a zero keeps its sign. */
  lemma FeeTextIs(tx: Tx)
    ensures FeeText(tx) ==
            if tx.fee < 0 then "-" + CentsText(-tx.fee) else if tx.fee > 0 then CentsText(tx.fee)
            else if tx.minusZero then "-0.00" else "0.00"
  {
  }

  // ---------- Hamilton's texts ----------

  function Quoted(ss: seq<string>): seq<string> {
    seq(|ss|, i requires 0 <= i < |ss| => Quote(ss[i]))
  }

  lemma ListLayout(ss: seq<string>, st: Style)
    ensures Print(Arr(StrList(ss)), st) == "[" + Join(Quoted(ss), CommaOf(st)) + "]"
  {
    ItemsText(StrList(ss), Quoted(ss), st);
  }

  /** A transfer's output as it is stored: keys in the order of the request model. */
  function StoredOut(o: TxOut): string {
    "{" + Join([Named("token_id", Quote(o.tokenId), Spaced), Named("amount", Plainly(CentsText(o.amount)), Spaced),
                Named("receiver_public_key", Quote(o.receiver), Spaced)], ", ") + "}"
  }

  function StoredOuts(outs: seq<TxOut>): seq<string> {
    seq(|outs|, i requires 0 <= i < |outs| => StoredOut(outs[i]))
  }

  /** ... and as it is signed: keys in alphabetical order. */
  function SignedOutText(o: TxOut): string {
    "{" + Join([Named("amount", Plainly(CentsText(o.amount)), Compact), Named("receiver_public_key", Quote(o.receiver), Compact),
                Named("token_id", Quote(o.tokenId), Compact)], ",") + "}"
  }

  function SignedOutTexts(outs: seq<TxOut>): seq<string> {
    seq(|outs|, i requires 0 <= i < |outs| => SignedOutText(outs[i]))
  }

  lemma StoredOutLayout(o: TxOut)
    ensures Print(OutJson(o), Spaced) == StoredOut(o)
  {
    AmountPlain(o.amount);
    Fields3(Field("token_id", Str(o.tokenId)), Field("amount", Str(CentsText(o.amount))),
            Field("receiver_public_key", Str(o.receiver)), Spaced);
  }

  lemma SignedOutLayout(o: TxOut)
    ensures Print(SignedOut(o), Compact) == SignedOutText(o)
  {
    AmountPlain(o.amount);
    Fields3(Field("amount", Str(CentsText(o.amount))), Field("receiver_public_key", Str(o.receiver)),
            Field("token_id", Str(o.tokenId)), Compact);
  }

  lemma StoredOutsLayout(outs: seq<TxOut>)
    ensures Print(Arr(OutList(outs)), Spaced) == "[" + Join(StoredOuts(outs), ", ") + "]"
  {
    forall i | 0 <= i < |outs| ensures Print(OutList(outs)[i], Spaced) == StoredOuts(outs)[i] {
      StoredOutLayout(outs[i]);
    }
    ItemsText(OutList(outs), StoredOuts(outs), Spaced);
  }

  lemma SignedOutsLayout(outs: seq<TxOut>)
    ensures Print(Arr(SignedOuts(outs)), Compact) == "[" + Join(SignedOutTexts(outs), ",") + "]"
  {
    forall i | 0 <= i < |outs| ensures Print(SignedOuts(outs)[i], Compact) == SignedOutTexts(outs)[i] {
      SignedOutLayout(outs[i]);
    }
    ItemsText(SignedOuts(outs), SignedOutTexts(outs), Compact);
  }

  /** The stored text of a mint. */
  lemma MintLayout(amount: nat, currency: string, key: string)
    ensures Render(Mint(amount, currency, key)) == "{" + Join([
      Named("amount", Plainly(CentsText(amount)), Spaced), Named("currency", Quote(currency), Spaced),
      Named("public_key", Quote(key), Spaced)], ", ") + "}"
  {
    AmountPlain(amount);
    Fields3(Field("amount", Str(CentsText(amount))), Field("currency", Str(currency)), Field("public_key", Str(key)), Spaced);
  }

  // Under any key names, so that the proofs do not look into the names.

  lemma BurnShape(a: string, b: string, c: string, d: string, ids: seq<string>, network: string, owner: string, at: int, st: Style)
    ensures Print(Obj([Field(a, Arr(StrList(ids))), Field(b, Str(network)), Field(c, Str(owner)), Field(d, Num(at))]), st) ==
            "{" + Join([Named(a, "[" + Join(Quoted(ids), CommaOf(st)) + "]", st), Named(b, Quote(network), st),
                        Named(c, Quote(owner), st), Named(d, IntText(at), st)], CommaOf(st)) + "}"
  {
    ListLayout(ids, st);
    Fields4(Field(a, Arr(StrList(ids))), Field(b, Str(network)), Field(c, Str(owner)), Field(d, Num(at)), st);
  }

  lemma SignedBurnShape(a: string, b: string, c: string, d: string, ids: seq<string>, network: string, owner: string, at: int, st: Style)
    ensures Print(Obj([Field(a, Str(network)), Field(b, Str(owner)), Field(c, Num(at)), Field(d, Arr(StrList(ids)))]), st) ==
            "{" + Join([Named(a, Quote(network), st), Named(b, Quote(owner), st), Named(c, IntText(at), st),
                        Named(d, "[" + Join(Quoted(ids), CommaOf(st)) + "]", st)], CommaOf(st)) + "}"
  {
    ListLayout(ids, st);
    Fields4(Field(a, Str(network)), Field(b, Str(owner)), Field(c, Num(at)), Field(d, Arr(StrList(ids))), st);
  }

  lemma TransferShape(a: string, b: string, c: string, d: string, e: string, f: string, g: string, id: string, network: string,
                      currency: string, ins: seq<string>, outs: Json, outsText: string, signer: string, at: int)
    requires Print(outs, Spaced) == outsText
    ensures Print(Obj([Field(a, Str(id)), Field(b, Str(network)), Field(c, Str(currency)), Field(d, Arr(StrList(ins))),
                       Field(e, outs), Field(f, Str(signer)), Field(g, Num(at))]), Spaced) ==
            "{" + Join([Named(a, Quote(id), Spaced), Named(b, Quote(network), Spaced), Named(c, Quote(currency), Spaced),
                        Named(d, "[" + Join(Quoted(ins), ", ") + "]", Spaced), Named(e, outsText, Spaced),
                        Named(f, Quote(signer), Spaced), Named(g, IntText(at), Spaced)], ", ") + "}"
  {
    ListLayout(ins, Spaced);
    Fields7(Field(a, Str(id)), Field(b, Str(network)), Field(c, Str(currency)), Field(d, Arr(StrList(ins))), Field(e, outs),
            Field(f, Str(signer)), Field(g, Num(at)), Spaced);
  }

  lemma SignedTransferShape(a: string, b: string, c: string, d: string, e: string, f: string, g: string, id: string,
                            network: string, currency: string, ins: seq<string>, outs: Json, outsText: string, signer: string, at: int)
    requires Print(outs, Compact) == outsText
    ensures Print(Obj([Field(a, Str(currency)), Field(b, Arr(StrList(ins))), Field(c, Str(network)), Field(d, outs),
                       Field(e, Num(at)), Field(f, Str(signer)), Field(g, Str(id))]), Compact) ==
            "{" + Join([Named(a, Quote(currency), Compact), Named(b, "[" + Join(Quoted(ins), ",") + "]", Compact),
                        Named(c, Quote(network), Compact), Named(d, outsText, Compact), Named(e, IntText(at), Compact),
                        Named(f, Quote(signer), Compact), Named(g, Quote(id), Compact)], ",") + "}"
  {
    ListLayout(ins, Compact);
    Fields7(Field(a, Str(currency)), Field(b, Arr(StrList(ins))), Field(c, Str(network)), Field(d, outs), Field(e, Num(at)),
            Field(f, Str(signer)), Field(g, Str(id)), Compact);
  }

  lemma BurnStored(ids: seq<string>, network: string, owner: string, at: int)
    ensures Render(Burn(ids, network, owner, at)) ==
            Print(Obj([Field("token_ids", Arr(StrList(ids))), Field("network_id", Str(network)),
                       Field("owner_public_key", Str(owner)), Field("signed_at", Num(at))]), Spaced)
  {
  }

  /** The stored text of a burn. */
  lemma BurnLayout(ids: seq<string>, network: string, owner: string, at: int)
    ensures Render(Burn(ids, network, owner, at)) == "{" + Join([
      Named("token_ids", "[" + Join(Quoted(ids), ", ") + "]", Spaced), Named("network_id", Quote(network), Spaced),
      Named("owner_public_key", Quote(owner), Spaced), Named("signed_at", IntText(at), Spaced)], ", ") + "}"
  {
    BurnStored(ids, network, owner, at);
    BurnShape("token_ids", "network_id", "owner_public_key", "signed_at", ids, network, owner, at, Spaced);
  }

  /** The stored text of a transfer. */
  lemma TransferLayout(id: string, network: string, currency: string, ins: seq<string>, outs: seq<TxOut>, signer: string, at: int)
    ensures Render(Transfer(id, network, currency, ins, outs, signer, at)) == "{" + Join([
      Named("transaction_id", Quote(id), Spaced), Named("network_id", Quote(network), Spaced),
      Named("currency", Quote(currency), Spaced), Named("inputs", "[" + Join(Quoted(ins), ", ") + "]", Spaced),
      Named("outputs", "[" + Join(StoredOuts(outs), ", ") + "]", Spaced), Named("signer_public_key", Quote(signer), Spaced),
      Named("signed_at", IntText(at), Spaced)], ", ") + "}"
  {
    StoredOutsLayout(outs);
    TransferShape("transaction_id", "network_id", "currency", "inputs", "outputs", "signer_public_key", "signed_at",
                  id, network, currency, ins, Arr(OutList(outs)), "[" + Join(StoredOuts(outs), ", ") + "]", signer, at);
  }

  /** What the owner of a burn signs. */
  lemma SignedBurnLayout(ids: seq<string>, network: string, owner: string, at: int)
    ensures SignedText(Burn(ids, network, owner, at)) == "HAMILTON_CORE_BURN_V1:" + ("{" + Join([
      Named("network_id", Quote(network), Compact), Named("owner_public_key", Quote(owner), Compact),
      Named("signed_at", IntText(at), Compact), Named("token_ids", "[" + Join(Quoted(ids), ",") + "]", Compact)], ",") + "}")
  {
    SignedBurnShape("network_id", "owner_public_key", "signed_at", "token_ids", ids, network, owner, at, Compact);
  }

  /** What the signer of a transfer signs. */
  lemma SignedTransferLayout(id: string, network: string, currency: string, ins: seq<string>, outs: seq<TxOut>, signer: string, at: int)
    ensures SignedText(Transfer(id, network, currency, ins, outs, signer, at)) == "HAMILTON_CORE_TX_V1:" + ("{" + Join([
      Named("currency", Quote(currency), Compact), Named("inputs", "[" + Join(Quoted(ins), ",") + "]", Compact),
      Named("network_id", Quote(network), Compact), Named("outputs", "[" + Join(SignedOutTexts(outs), ",") + "]", Compact),
      Named("signed_at", IntText(at), Compact), Named("signer_public_key", Quote(signer), Compact),
      Named("transaction_id", Quote(id), Compact)], ",") + "}")
  {
    SignedOutsLayout(outs);
    SignedTransferShape("currency", "inputs", "network_id", "outputs", "signed_at", "signer_public_key", "transaction_id",
                        id, network, currency, ins, Arr(SignedOuts(outs)), "[" + Join(SignedOutTexts(outs), ",") + "]", signer, at);
  }
}
