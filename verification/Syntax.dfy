/** The text forms that request validation demands of keys and ids. */
module Syntax {
  import opened Json

  predicate IsHexDigit(c: char) {
    '0' <= c <= '9' || 'a' <= c <= 'f' || 'A' <= c <= 'F'
  }

  predicate IsSpace(c: char) {
    c == ' ' || 9 <= c as int <= 13
  }

  /** bytes.fromhex: pairs of hex digits, with white space allowed between the pairs. */
  predicate FromHexAccepts(s: string) {
    if s == [] then true
    else if IsSpace(s[0]) then FromHexAccepts(s[1..])
    else |s| >= 2 && IsHexDigit(s[0]) && IsHexDigit(s[1]) && FromHexAccepts(s[2..])
  }

  /** A public key as the request models take it. */
  predicate IsHexKey(s: string) {
    |s| == 64 && FromHexAccepts(s)
  }

  predicate IsHexSignature(s: string) {
    |s| == 128 && FromHexAccepts(s)
  }

  /** Hex digits only, so that n characters are n / 2 bytes. */
  predicate AllHex(s: string, n: nat) {
    |s| == n && forall i :: 0 <= i < n ==> IsHexDigit(s[i])
  }

  predicate IsDash(i: nat) {
    i == 8 || i == 13 || i == 18 || i == 23
  }

  /** The plain form of a UUID. */
  predicate IsUuid(s: string) {
    |s| == 36 && forall i :: 0 <= i < 36 ==> if IsDash(i) then s[i] == '-' else IsHexDigit(s[i])
  }

  /** What str(uuid4()) can return (section 5.4 of RFC 9562). */
  predicate IsUuid4(s: string) {
    && IsUuid(s) && (forall i :: 0 <= i < 36 ==> !('A' <= s[i] <= 'F'))
    && s[14] == '4' && (s[19] == '8' || s[19] == '9' || s[19] == 'a' || s[19] == 'b')
  }

  type Uuid4 = s: string | IsUuid4(s) witness "00000000-0000-4000-8000-000000000000"

  const ZERO_UUID: Uuid4 := "00000000-0000-4000-8000-000000000000"
  const ONE_UUID: Uuid4 := "00000000-0000-4000-8000-000000000001"

  lemma UuidsDiffer()
    ensures ZERO_UUID != ONE_UUID
  {
    assert ZERO_UUID[35] == '0' && ONE_UUID[35] == '1';
  }

  lemma {:induction false} HexPairs(s: string)
    requires |s| % 2 == 0 && forall i :: 0 <= i < |s| ==> IsHexDigit(s[i])
    ensures FromHexAccepts(s)
  {
    if s != [] {
      assert IsHexDigit(s[0]);
      HexPairs(s[2..]);
    }
  }

  // ---------- many UUIDs ----------

  /** The number of texts of w hex digits. */
  function HexCount(w: nat): nat {
    if w == 0 then 1 else 16 * HexCount(w - 1)
  }

  function HexText(n: nat, w: nat): (t: string)
    ensures |t| == w && forall i :: 0 <= i < w ==> IsHexDigit(t[i])
  {
    if w == 0 then [] else HexText(n / 16, w - 1) + [HexDigit(n % 16)]
  }

  lemma {:induction false} HexTextInjective(a: nat, b: nat, w: nat)
    requires a < HexCount(w) && b < HexCount(w) && HexText(a, w) == HexText(b, w)
    ensures a == b
  {
    if w > 0 {
      var s, t := HexText(a, w), HexText(b, w);
      assert s[..w - 1] == HexText(a / 16, w - 1) && t[..w - 1] == HexText(b / 16, w - 1);
      HexDigitInjective(a % 16, b % 16);
      HexTextInjective(a / 16, b / 16, w - 1);
    }
  }

  /** Where a digit stands once the dashes are in. */
  function Slot(i: nat): nat
    requires i < 36 && !IsDash(i)
  {
    if i < 8 then i else if i < 13 then i - 1 else if i < 18 then i - 2 else if i < 23 then i - 3 else i - 4
  }

  function Place(j: nat): nat
    requires j < 32
  {
    if j < 8 then j else if j < 12 then j + 1 else if j < 16 then j + 2 else if j < 20 then j + 3 else j + 4
  }

  function NthUuid(n: nat): (u: string)
    ensures IsUuid(u)
  {
    seq(36, i requires 0 <= i < 36 => if IsDash(i) then '-' else HexText(n, 32)[Slot(i)])
  }

  lemma NthUuidInjective(a: nat, b: nat)
    requires a < HexCount(32) && b < HexCount(32) && NthUuid(a) == NthUuid(b)
    ensures a == b
  {
    var s, t := HexText(a, 32), HexText(b, 32);
    forall j | 0 <= j < 32 ensures s[j] == t[j] {
      assert NthUuid(a)[Place(j)] == s[j] && NthUuid(b)[Place(j)] == t[j];
    }
    assert s == t;
    HexTextInjective(a, b, 32);
  }
}
