/** JSON text as the standard encoder prints it (section 7 of RFC 8259, everything past '~' escaped),
    and the proof that the text determines the value. */
module Json {
  datatype Json = Str(s: string) | Num(n: int) | Arr(items: seq<Json>) | Obj(fields: seq<Field>)

  datatype Field = Field(key: string, value: Json)

  // ---------- digits ----------

  predicate IsDigit(c: char) { '0' <= c <= '9' }

  function Digit(d: nat): (c: char)
    requires d < 10
    ensures IsDigit(c)
  {
    ('0' as int + d) as char
  }

  function NatText(n: nat): (t: string)
    ensures |t| > 0 && forall i :: 0 <= i < |t| ==> IsDigit(t[i])
  {
    if n < 10 then [Digit(n)] else NatText(n / 10) + [Digit(n % 10)]
  }

  function DigitValue(c: char): nat
    requires IsDigit(c)
  {
    c as int - '0' as int
  }

  function ParseNat(t: string): nat
    requires forall i :: 0 <= i < |t| ==> IsDigit(t[i])
  {
    if t == [] then 0 else 10 * ParseNat(t[..|t| - 1]) + DigitValue(t[|t| - 1])
  }

  lemma {:induction false} ParseNatOfText(n: nat)
    ensures ParseNat(NatText(n)) == n
  {
    if n >= 10 {
      ParseNatOfText(n / 10);
      assert NatText(n)[..|NatText(n)| - 1] == NatText(n / 10);
    } else {
      assert NatText(n)[..0] == [];
    }
  }

  function IntText(n: int): string {
    if n < 0 then "-" + NatText(-n) else NatText(n)
  }

  /** Text that may follow a number: nothing, or something that is not a digit. */
  predicate AfterNumber(x: string) { x == [] || !IsDigit(x[0]) }

  lemma LongestDigits(a: string, b: string, x: string, y: string)
    requires a + x == b + y && AfterNumber(x)
    requires forall i :: 0 <= i < |b| ==> IsDigit(b[i])
    ensures |a| >= |b|
  {
    assert b == (a + x)[..|b|];
    assert x == (a + x)[|a|..];
  }

  lemma NatTextPrefix(n: nat, m: nat, x: string, y: string)
    requires NatText(n) + x == NatText(m) + y && AfterNumber(x) && AfterNumber(y)
    ensures n == m && x == y
  {
    var a, b := NatText(n), NatText(m);
    LongestDigits(a, b, x, y);
    LongestDigits(b, a, y, x);
    SameCut(a, b, x, y);
    ParseNatOfText(n);
    ParseNatOfText(m);
  }

  lemma SameCut(a: string, b: string, x: string, y: string)
    requires a + x == b + y && |a| == |b|
    ensures a == b && x == y
  {
    assert a == (a + x)[..|a|] && b == (b + y)[..|b|];
    assert x == (a + x)[|a|..] && y == (b + y)[|b|..];
  }

  lemma SignOf(n: int, x: string)
    ensures var t := IntText(n) + x; (t[0] == '-' <==> n < 0) && (n < 0 ==> t[1..] == NatText(-n) + x)
  {
    var s := IntText(n);
    assert (s + x)[0] == s[0];
    assert (s + x)[1..] == s[1..] + x;
  }

  lemma IntTextPrefix(n: int, m: int, x: string, y: string)
    requires IntText(n) + x == IntText(m) + y && AfterNumber(x) && AfterNumber(y)
    ensures n == m && x == y
  {
    SignOf(n, x);
    SignOf(m, y);
    if n < 0 && m < 0 {
      NatTextPrefix(-n, -m, x, y);
    } else if n >= 0 && m >= 0 {
      NatTextPrefix(n, m, x, y);
    }
  }

  // ---------- strings ----------

  function HexDigit(d: nat): (c: char)
    requires d < 16
    ensures c != '"' && c != '\\'
  {
    if d < 10 then Digit(d) else ('a' as int + d - 10) as char
  }

  function Hex4(n: nat): (t: string)
    requires n < 0x10000
    ensures |t| == 4
  {
    [HexDigit(n / 0x1000), HexDigit(n / 0x100 % 0x10), HexDigit(n / 0x10 % 0x10), HexDigit(n % 0x10)]
  }

  lemma HexDigitInjective(a: nat, b: nat)
    requires a < 16 && b < 16 && HexDigit(a) == HexDigit(b)
    ensures a == b
  {
    if a >= 10 { assert HexDigit(a) as int == 'a' as int + a - 10; }
    if b >= 10 { assert HexDigit(b) as int == 'a' as int + b - 10; }
  }

  function HexValue(a: nat, b: nat, c: nat, d: nat): nat {
    0x1000 * a + 0x100 * b + 0x10 * c + d
  }

  lemma HexValueOf(n: nat)
    requires n < 0x10000
    ensures n == HexValue(n / 0x1000, n / 0x100 % 0x10, n / 0x10 % 0x10, n % 0x10)
  {
    var a := n / 0x10;
    var b := n / 0x100;
    assert a / 0x10 == b && b / 0x10 == n / 0x1000;
  }

  lemma Hex4Injective(n: nat, m: nat)
    requires n < 0x10000 && m < 0x10000 && Hex4(n) == Hex4(m)
    ensures n == m
  {
    HexValueOf(n);
    HexValueOf(m);
    var s, t := Hex4(n), Hex4(m);
    assert s[0] == t[0] && s[1] == t[1] && s[2] == t[2] && s[3] == t[3];
    HexDigitInjective(n / 0x1000, m / 0x1000);
    HexDigitInjective(n / 0x100 % 0x10, m / 0x100 % 0x10);
    HexDigitInjective(n / 0x10 % 0x10, m / 0x10 % 0x10);
    HexDigitInjective(n % 0x10, m % 0x10);
  }

  /** The letter of a two-character escape, if the character has one. */
  function ShortEscape(c: char): (e: string)
    ensures |e| <= 1
    ensures e != [] ==> e[0] != 'u'
  {
    if c == '"' then "\"" else if c == '\\' then "\\" else if c == '\n' then "n"
    else if c == '\r' then "r" else if c == '\t' then "t" else if c as int == 8 then "b"
    else if c as int == 12 then "f" else ""
  }

  function HighSurrogate(n: int): nat
    requires 0x10000 <= n < 0x11_0000
  {
    0xD800 + (n - 0x10000) / 0x400
  }

  function LowSurrogate(n: int): nat
    requires 0x10000 <= n < 0x11_0000
  {
    0xDC00 + (n - 0x10000) % 0x400
  }

  function EscapeChar(c: char): (t: string)
    ensures |t| > 0 && t[0] != '"'
  {
    var n := c as int;
    if ShortEscape(c) != [] then "\\" + ShortEscape(c)
    else if ' ' <= c <= '~' then [c]
    else if n < 0x10000 then "\\u" + Hex4(n)
    else "\\u" + Hex4(HighSurrogate(n)) + "\\u" + Hex4(LowSurrogate(n))
  }

  predicate Long(c: char) { ShortEscape(c) == [] && !(' ' <= c <= '~') }

  lemma LongShape(c: char)
    requires Long(c)
    ensures var n, t := c as int, EscapeChar(c);
            if n < 0x10000 then t == "\\u" + Hex4(n) && |t| == 6
            else |t| == 12 && t[..6] == "\\u" + Hex4(HighSurrogate(n)) && t[8..] == Hex4(LowSurrogate(n))
  {
  }

  lemma LongPrefix(c: char, d: char, x: string, y: string)
    requires Long(c) && Long(d) && EscapeChar(c) + x == EscapeChar(d) + y
    ensures c == d
  {
    LongShape(c);
    LongShape(d);
    var n, m := c as int, d as int;
    var s := EscapeChar(c) + x;
    var hn := if n < 0x10000 then n else HighSurrogate(n);
    var hm := if m < 0x10000 then m else HighSurrogate(m);
    assert s[..6] == "\\u" + Hex4(hn) && (EscapeChar(d) + y)[..6] == "\\u" + Hex4(hm);
    assert Hex4(hn) == ("\\u" + Hex4(hn))[2..] && Hex4(hm) == ("\\u" + Hex4(hm))[2..];
    Hex4Injective(hn, hm);
    if n >= 0x10000 && m >= 0x10000 {
      assert s[8..12] == Hex4(LowSurrogate(n)) && (EscapeChar(d) + y)[8..12] == Hex4(LowSurrogate(m));
      Hex4Injective(LowSurrogate(n), LowSurrogate(m));
    }
  }

  lemma EscapeCharPrefix(c: char, d: char, x: string, y: string)
    requires EscapeChar(c) + x == EscapeChar(d) + y
    ensures c == d && x == y
  {
    var s, t := EscapeChar(c), EscapeChar(d);
    assert (s + x)[0] == s[0] && (t + y)[0] == t[0];
    if Long(c) && Long(d) {
      LongPrefix(c, d, x, y);
    } else if |s| > 1 && |t| > 1 {
      assert (s + x)[1] == s[1] && (t + y)[1] == t[1];
    }
    SameCut(s, t, x, y);
  }

  function Escape(s: string): string {
    if s == [] then "" else EscapeChar(s[0]) + Escape(s[1..])
  }

  function Quote(s: string): string { "\"" + Escape(s) + "\"" }

  lemma {:induction false} EscapePrefix(s: string, t: string, x: string, y: string)
    requires Escape(s) + "\"" + x == Escape(t) + "\"" + y
    ensures s == t && x == y
  {
    var a, b := Escape(s) + "\"" + x, Escape(t) + "\"" + y;
    EscapeHead(s, x);
    EscapeHead(t, y);
    if s != [] && t != [] {
      var p, q := Escape(s[1..]) + "\"" + x, Escape(t[1..]) + "\"" + y;
      EscapeCharPrefix(s[0], t[0], p, q);
      EscapePrefix(s[1..], t[1..], x, y);
      assert s == [s[0]] + s[1..] && t == [t[0]] + t[1..];
    } else if s == [] && t == [] {
      assert x == a[1..] && y == b[1..];
    }
  }

  lemma EscapeHead(s: string, x: string)
    ensures var a := Escape(s) + "\"" + x;
            if s == [] then a[0] == '"' && a[1..] == x
            else a[0] != '"' && a == EscapeChar(s[0]) + (Escape(s[1..]) + "\"" + x)
  {
    if s != [] {
      Regroup(EscapeChar(s[0]), Escape(s[1..]), "\"", x);
    }
  }

  lemma Regroup(a: string, b: string, c: string, d: string)
    ensures a + b + c + d == a + (b + c + d)
    ensures a != [] ==> (a + b + c + d)[0] == a[0]
  {
  }

  // ---------- values ----------

  /** Separators: compact for hashed text, spaced for stored text. */
  datatype Style = Compact | Spaced

  function Comma(st: Style): string { if st.Compact? then "," else ", " }

  function Colon(st: Style): string { if st.Compact? then ":" else ": " }

  function Print(j: Json, st: Style): string
    decreases j
  {
    match j
    case Str(s) => Quote(s)
    case Num(n) => IntText(n)
    case Arr(items) => "[" + PrintItems(items, st) + "]"
    case Obj(fields) => "{" + PrintFields(fields, st) + "}"
  }

  function PrintItems(js: seq<Json>, st: Style): string
    decreases js
  {
    if js == [] then "" else
      Print(js[0], st) + (if |js| == 1 then "" else Comma(st) + PrintItems(js[1..], st))
  }

  function PrintFields(fs: seq<Field>, st: Style): string
    decreases fs
  {
    if fs == [] then "" else
      Quote(fs[0].key) + Colon(st) + Print(fs[0].value, st) + (if |fs| == 1 then "" else Comma(st) + PrintFields(fs[1..], st))
  }

  /** Text that may follow a printed value: nothing, or a separator or closing bracket. */
  predicate AfterValue(x: string) { x == [] || x[0] in ",]}" }

  lemma ListText(first: string, rest: string, close: string, x: string, more: bool, st: Style)
    requires close == "]" || close == "}"
    ensures var tail := if more then Comma(st) + rest else "";
            var after := if more then Comma(st) + (rest + close + x) else close + x;
            first + tail + close + x == first + after && AfterValue(after)
  {
  }

  /** Strings with the same style of text and equal continuations are the same string. */
  lemma QuotePrefix(s: string, t: string, x: string, y: string)
    requires Quote(s) + x == Quote(t) + y
    ensures s == t && x == y
  {
    Unwrap("\"", Escape(s), "\"", x);
    Unwrap("\"", Escape(t), "\"", y);
    EscapePrefix(s, t, x, y);
  }

  /** The printed value's first character tells its constructor. */
  lemma FirstChar(j: Json, st: Style)
    ensures var p := Print(j, st);
            |p| > 0 && p[0] !in ",]}" &&
            (j.Str? <==> p[0] == '"') && (j.Arr? <==> p[0] == '[') && (j.Obj? <==> p[0] == '{')
  {
  }

  /** A printed value can be cut off any text that continues it, and it determines the value. */
  lemma {:induction false} PrintPrefix(a: Json, b: Json, st: Style, x: string, y: string)
    requires Print(a, st) + x == Print(b, st) + y && AfterValue(x) && AfterValue(y)
    ensures a == b && x == y
    decreases a, 1
  {
    FirstChar(a, st);
    FirstChar(b, st);
    assert (Print(a, st) + x)[0] == Print(a, st)[0] && (Print(b, st) + y)[0] == Print(b, st)[0];
    match a
    case Str(s) => QuotePrefix(s, b.s, x, y);
    case Num(n) => IntTextPrefix(n, b.n, x, y);
    case Arr(items) =>
      Unwrap("[", PrintItems(items, st), "]", x);
      Unwrap("[", PrintItems(b.items, st), "]", y);
      ItemsPrefix(items, b.items, st, x, y);
    case Obj(fields) =>
      Unwrap("{", PrintFields(fields, st), "}", x);
      Unwrap("{", PrintFields(b.fields, st), "}", y);
      FieldsPrefix(fields, b.fields, st, x, y);
  }

  lemma Unwrap(open: string, body: string, close: string, x: string)
    requires |open| == 1
    ensures (open + body + close + x)[1..] == body + close + x
  {
  }

  lemma {:induction false} ItemsPrefix(a: seq<Json>, b: seq<Json>, st: Style, x: string, y: string)
    requires PrintItems(a, st) + "]" + x == PrintItems(b, st) + "]" + y
    ensures a == b && x == y
    decreases a, 1
  {
    BothEmptyItems(a, b, st, x, y);
    if a != [] {
      ItemsStep(a, b, st, x, y);
      ItemsTailsAgree(a, b, st, x, y);
      if |a| > 1 {
        ItemsPrefix(a[1..], b[1..], st, x, y);
      }
      assert a == [a[0]] + a[1..] && b == [b[0]] + b[1..];
    }
  }

  lemma BothEmptyItems(a: seq<Json>, b: seq<Json>, st: Style, x: string, y: string)
    requires PrintItems(a, st) + "]" + x == PrintItems(b, st) + "]" + y
    ensures a == [] <==> b == []
    ensures a == [] ==> x == y
  {
    ItemsHead(a, st, x);
    ItemsHead(b, st, y);
    if a == [] {
      SameCut("]", "]", x, y);
    }
  }

  lemma {:induction false} ItemsStep(a: seq<Json>, b: seq<Json>, st: Style, x: string, y: string)
    requires a != [] && b != []
    requires PrintItems(a, st) + "]" + x == PrintItems(b, st) + "]" + y
    ensures a[0] == b[0] && ItemsTail(a, st, x) == ItemsTail(b, st, y)
    decreases a, 0
  {
    ItemsHead(a, st, x);
    ItemsHead(b, st, y);
    PrintPrefix(a[0], b[0], st, ItemsTail(a, st, x), ItemsTail(b, st, y));
  }

  function ItemsTail(a: seq<Json>, st: Style, x: string): string
    requires a != []
  {
    if |a| > 1 then Comma(st) + (PrintItems(a[1..], st) + "]" + x) else "]" + x
  }

  lemma ItemsTailsAgree(a: seq<Json>, b: seq<Json>, st: Style, x: string, y: string)
    requires a != [] && b != [] && ItemsTail(a, st, x) == ItemsTail(b, st, y)
    ensures |a| > 1 <==> |b| > 1
    ensures if |a| > 1 then PrintItems(a[1..], st) + "]" + x == PrintItems(b[1..], st) + "]" + y else x == y
  {
    TailsAgree(PrintItems(a[1..], st) + "]" + x, PrintItems(b[1..], st) + "]" + y, |a| > 1, |b| > 1, "]", x, y, st);
  }

  lemma ItemsHead(a: seq<Json>, st: Style, x: string)
    ensures var t := PrintItems(a, st) + "]" + x;
            if a == [] then t == "]" + x && t[0] == ']'
            else t[0] != ']' && t == Print(a[0], st) + ItemsTail(a, st, x) && AfterValue(ItemsTail(a, st, x))
  {
    if a != [] {
      FirstChar(a[0], st);
      ListText(Print(a[0], st), if |a| > 1 then PrintItems(a[1..], st) else "", "]", x, |a| > 1, st);
    }
  }

  lemma TailsAgree(p: string, q: string, more: bool, more': bool, close: string, x: string, y: string, st: Style)
    requires close == "]" || close == "}"
    requires (if more then Comma(st) + p else close + x) == (if more' then Comma(st) + q else close + y)
    ensures more == more'
    ensures if more then p == q else x == y
  {
    var l, r := if more then Comma(st) + p else close + x, if more' then Comma(st) + q else close + y;
    assert l[0] == (if more then ',' else close[0]) && r[0] == (if more' then ',' else close[0]);
    if more {
      SameCut(Comma(st), Comma(st), p, q);
    } else {
      SameCut(close, close, x, y);
    }
  }

  lemma {:induction false} FieldsPrefix(a: seq<Field>, b: seq<Field>, st: Style, x: string, y: string)
    requires PrintFields(a, st) + "}" + x == PrintFields(b, st) + "}" + y
    ensures a == b && x == y
    decreases a, 1
  {
    BothEmptyFields(a, b, st, x, y);
    if a != [] {
      FieldsStep(a, b, st, x, y);
      FieldsTailsAgree(a, b, st, x, y);
      if |a| > 1 {
        FieldsPrefix(a[1..], b[1..], st, x, y);
      }
      assert a == [a[0]] + a[1..] && b == [b[0]] + b[1..];
    }
  }

  lemma BothEmptyFields(a: seq<Field>, b: seq<Field>, st: Style, x: string, y: string)
    requires PrintFields(a, st) + "}" + x == PrintFields(b, st) + "}" + y
    ensures a == [] <==> b == []
    ensures a == [] ==> x == y
  {
    FieldsHead(a, st, x);
    FieldsHead(b, st, y);
    if a == [] {
      SameCut("}", "}", x, y);
    }
  }

  lemma {:induction false} FieldsStep(a: seq<Field>, b: seq<Field>, st: Style, x: string, y: string)
    requires a != [] && b != []
    requires PrintFields(a, st) + "}" + x == PrintFields(b, st) + "}" + y
    ensures a[0] == b[0] && FieldsTail(a, st, x) == FieldsTail(b, st, y)
    decreases a, 0
  {
    FieldsHead(a, st, x);
    FieldsHead(b, st, y);
    FieldPrefix(a[0], b[0], st, FieldsTail(a, st, x), FieldsTail(b, st, y));
  }

  lemma {:induction false} FieldPrefix(a: Field, b: Field, st: Style, p: string, q: string)
    requires Quote(a.key) + (Colon(st) + (Print(a.value, st) + p)) == Quote(b.key) + (Colon(st) + (Print(b.value, st) + q))
    requires AfterValue(p) && AfterValue(q)
    ensures a == b && p == q
    decreases a, 0
  {
    var va, vb := Print(a.value, st) + p, Print(b.value, st) + q;
    QuotePrefix(a.key, b.key, Colon(st) + va, Colon(st) + vb);
    SameCut(Colon(st), Colon(st), va, vb);
    PrintPrefix(a.value, b.value, st, p, q);
  }

  function FieldsTail(a: seq<Field>, st: Style, x: string): string
    requires a != []
  {
    if |a| > 1 then Comma(st) + (PrintFields(a[1..], st) + "}" + x) else "}" + x
  }

  lemma FieldsTailsAgree(a: seq<Field>, b: seq<Field>, st: Style, x: string, y: string)
    requires a != [] && b != [] && FieldsTail(a, st, x) == FieldsTail(b, st, y)
    ensures |a| > 1 <==> |b| > 1
    ensures if |a| > 1 then PrintFields(a[1..], st) + "}" + x == PrintFields(b[1..], st) + "}" + y else x == y
  {
    TailsAgree(PrintFields(a[1..], st) + "}" + x, PrintFields(b[1..], st) + "}" + y, |a| > 1, |b| > 1, "}", x, y, st);
  }

  lemma FieldsHead(a: seq<Field>, st: Style, x: string)
    ensures var t := PrintFields(a, st) + "}" + x;
            if a == [] then t == "}" + x && t[0] == '}'
            else t[0] != '}' && AfterValue(FieldsTail(a, st, x)) &&
                 t == Quote(a[0].key) + (Colon(st) + (Print(a[0].value, st) + FieldsTail(a, st, x)))
  {
    if a != [] {
      FieldText(Quote(a[0].key), Colon(st), Print(a[0].value, st), if |a| > 1 then PrintFields(a[1..], st) else "", x, |a| > 1, st);
    }
  }

  lemma FieldText(k: string, colon: string, v: string, rest: string, x: string, more: bool, st: Style)
    ensures var tail := if more then Comma(st) + rest else "";
            var after := if more then Comma(st) + (rest + "}" + x) else "}" + x;
            k + colon + v + tail + "}" + x == k + (colon + (v + after)) && AfterValue(after) &&
            (k != [] ==> (k + colon + v + tail + "}" + x)[0] == k[0])
  {
    var tail := if more then Comma(st) + rest else "";
    var after := if more then Comma(st) + (rest + "}" + x) else "}" + x;
    ListText(v, rest, "}", x, more, st);
    assert k + colon + v + tail + "}" + x == k + colon + (v + tail + "}" + x);
    assert k + colon + (v + after) == k + (colon + (v + after));
  }

  /** Equal printed text means equal values. */
  lemma PrintInjective(a: Json, b: Json, st: Style)
    requires Print(a, st) == Print(b, st)
    ensures a == b
  {
    assert Print(a, st) + "" == Print(a, st) && Print(b, st) + "" == Print(b, st);
    PrintPrefix(a, b, st, "", "");
  }
}
