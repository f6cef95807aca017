/** Compact JSON text (RFC 8259, sections 4 to 7) with ASCII escaping, the way
    `json.dumps(..., separators=(",", ":"))` writes it, and a parser that reads it back. */
module JsonText {
  import opened Json

  // ---------- integers ----------

  function NatText(n: nat): (t: string)
    ensures |t| > 0 && AllDigits(t)
  {
    if n < 10 then [('0' as int + n) as char] else NatText(n / 10) + [('0' as int + n % 10) as char]
  }

  function IntText(n: int): string { if n < 0 then "-" + NatText(-n) else NatText(n) }

  predicate AllDigits(t: string) { forall i | 0 <= i < |t| :: IsDigit(t[i]) }

  lemma {:induction false} NatTextValue(n: nat)
    ensures DigitsValue(NatText(n)) == n
  {
    var t := NatText(n);
    if n < 10 {
      assert t[..0] == "";
    } else {
      NatTextValue(n / 10);
      assert t[..|t| - 1] == NatText(n / 10);
    }
  }

  // ---------- strings ----------

  function HexDigit(n: nat): char
    requires n < 16
  {
    if n < 10 then ('0' as int + n) as char else ('a' as int + n - 10) as char
  }

  predicate IsHex(c: char) { '0' <= c <= '9' || 'a' <= c <= 'f' }

  function HexDigitValue(c: char): nat
    requires IsHex(c)
  {
    if c <= '9' then c as int - '0' as int else c as int - 'a' as int + 10
  }

  function Hex4(n: nat): (t: string)
    requires n < 0x10000
    ensures |t| == 4
  {
    [HexDigit(n / 4096), HexDigit(n / 256 % 16), HexDigit(n / 16 % 16), HexDigit(n % 16)]
  }

  /** Reads exactly four hexadecimal digits. */
  function ReadHex4(t: string): Option<nat> {
    if |t| >= 4 && IsHex(t[0]) && IsHex(t[1]) && IsHex(t[2]) && IsHex(t[3])
    then Some(HexDigitValue(t[0]) * 4096 + HexDigitValue(t[1]) * 256 + HexDigitValue(t[2]) * 16 + HexDigitValue(t[3]))
    else None
  }

  lemma HexDigitReads(d: nat)
    requires d < 16
    ensures IsHex(HexDigit(d)) && HexDigitValue(HexDigit(d)) == d
  {
  }

  lemma FourDigits(n: nat)
    requires n < 0x10000
    ensures n / 4096 < 16
    ensures n / 4096 * 4096 + n / 256 % 16 * 256 + n / 16 % 16 * 16 + n % 16 == n
  {
    var a, b := n / 16, n / 256;
    assert n == 16 * a + n % 16;
    assert a == 16 * b + a % 16;
    assert b == 16 * (b / 16) + b % 16;
  }

  lemma ReadHex4Reads(n: nat, rest: string)
    requires n < 0x10000
    ensures ReadHex4(Hex4(n) + rest) == Some(n)
  {
    FourDigits(n);
    HexDigitReads(n / 4096);
    HexDigitReads(n / 256 % 16);
    HexDigitReads(n / 16 % 16);
    HexDigitReads(n % 16);
    var t := Hex4(n) + rest;
    assert t[0] == HexDigit(n / 4096) && t[1] == HexDigit(n / 256 % 16)
        && t[2] == HexDigit(n / 16 % 16) && t[3] == HexDigit(n % 16);
  }

  function EscapeChar(c: char): string {
    var n := c as int;
    if c == '"' then "\\\""
    else if c == '\\' then "\\\\"
    else if c == '\n' then "\\n"
    else if c == '\r' then "\\r"
    else if c == '\t' then "\\t"
    else if n == 8 then "\\b"
    else if n == 12 then "\\f"
    else if ' ' <= c <= '~' then [c]
    else if n < 0x10000 then "\\u" + Hex4(n)
    else "\\u" + Hex4(0xd800 + (n - 0x10000) / 1024) + "\\u" + Hex4(0xdc00 + (n - 0x10000) % 1024)
  }

  function EscapeString(s: string): string {
    if s == "" then "" else EscapeChar(s[0]) + EscapeString(s[1..])
  }

  function Quote(s: string): string { "\"" + EscapeString(s) + "\"" }

  /** Reads one possibly escaped character of a JSON string. */
  function ReadChar(t: string): (r: Option<(char, string)>)
    requires t != ""
    ensures r.Some? ==> |r.value.1| < |t|
  {
    if t[0] != '\\' then Some((t[0], t[1..]))
    else if |t| < 2 then None
    else if t[1] == '"' || t[1] == '\\' then Some((t[1], t[2..]))
    else if t[1] == 'n' then Some(('\n', t[2..]))
    else if t[1] == 'r' then Some(('\r', t[2..]))
    else if t[1] == 't' then Some(('\t', t[2..]))
    else if t[1] == 'b' then Some((8 as char, t[2..]))
    else if t[1] == 'f' then Some((12 as char, t[2..]))
    else if t[1] == 'u' then ReadUnicode(t[2..])
    else None
  }

  /** Reads the digits after a backslash and `u`, joining a surrogate pair into one character. */
  function ReadUnicode(t: string): (r: Option<(char, string)>)
    ensures r.Some? ==> |r.value.1| < |t|
  {
    match ReadHex4(t)
    case None => None
    case Some(v) =>
      if v < 0xd800 || v >= 0xe000 then Some((v as char, t[4..]))
      else if v >= 0xdc00 || |t| < 10 || t[4] != '\\' || t[5] != 'u' then None
      else match ReadHex4(t[6..])
           case None => None
           case Some(w) =>
             if 0xdc00 <= w < 0xe000 then Some(((0x10000 + (v - 0xd800) * 1024 + (w - 0xdc00)) as char, t[10..]))
             else None
  }

  lemma ReadUnicodeReads(n: nat, rest: string)
    requires n < 0xd800 || 0xe000 <= n < 0x10000
    ensures ReadUnicode(Hex4(n) + rest) == Some((n as char, rest))
  {
    ReadHex4Reads(n, rest);
    assert (Hex4(n) + rest)[4..] == rest;
  }

  lemma PairText(hi: string, low: string)
    requires |hi| == 4
    ensures var u := hi + ("\\u" + low); |u| == 6 + |low| && u[4] == '\\' && u[5] == 'u' && u[6..] == low
  {
  }

  lemma DropDrop(t: string, m: nat, n: nat)
    requires m + n <= |t|
    ensures t[m..][n..] == t[m + n..]
  {
  }

  lemma ReadPairReads(v: nat, w: nat, rest: string)
    requires 0xd800 <= v < 0xdc00 <= w < 0xe000
    ensures ReadUnicode(Hex4(v) + ("\\u" + (Hex4(w) + rest)))
         == Some(((0x10000 + (v - 0xd800) * 1024 + (w - 0xdc00)) as char, rest))
  {
    var low := Hex4(w) + rest;
    var u := Hex4(v) + ("\\u" + low);
    ReadHex4Reads(v, "\\u" + low);
    ReadHex4Reads(w, rest);
    PairText(Hex4(v), low);
    DropDrop(u, 6, 4);
    assert low[4..] == rest;
  }

  lemma ReadSurrogatesReads(n: nat, rest: string)
    requires 0x10000 <= n < 0x110000
    ensures ReadUnicode(Hex4(0xd800 + (n - 0x10000) / 1024) + ("\\u" + (Hex4(0xdc00 + (n - 0x10000) % 1024) + rest)))
         == Some((n as char, rest))
  {
    var q, r := (n - 0x10000) / 1024, (n - 0x10000) % 1024;
    assert 0x10000 + q * 1024 + r == n;
    ReadPairReads(0xd800 + q, 0xdc00 + r, rest);
  }

  predicate IsEscapedShort(c: char) {
    c == '"' || c == '\\' || c == '\n' || c == '\r' || c == '\t' || c as int == 8 || c as int == 12
  }

  lemma ReadShortReads(c: char, rest: string)
    requires IsEscapedShort(c)
    ensures ReadChar(EscapeChar(c) + rest) == Some((c, rest))
  {
    var t := EscapeChar(c) + rest;
    assert t[2..] == rest;
  }

  lemma ReadCharReads(c: char, rest: string)
    ensures EscapeChar(c) + rest != "" && (EscapeChar(c) + rest)[0] != '"'
    ensures ReadChar(EscapeChar(c) + rest) == Some((c, rest))
  {
    if IsEscapedShort(c) {
      ReadShortReads(c, rest);
    } else if ' ' <= c <= '~' {
      assert ([c] + rest)[1..] == rest;
    } else {
      ReadLongReads(c, rest);
    }
  }

  lemma ReadLongReads(c: char, rest: string)
    requires !IsEscapedShort(c) && !(' ' <= c <= '~')
    ensures EscapeChar(c) != "" && EscapeChar(c)[0] != '"'
    ensures ReadChar(EscapeChar(c) + rest) == Some((c, rest))
  {
    if (c as int) < 0x10000 {
      ReadUnicodeReads(c as int, rest);
      ReadEscapeReads(Hex4(c as int), rest);
    } else {
      ReadAstralReads(c, rest);
    }
  }

  lemma ReadAstralReads(c: char, rest: string)
    requires c as int >= 0x10000
    ensures EscapeChar(c) != "" && EscapeChar(c)[0] != '"'
    ensures ReadChar(EscapeChar(c) + rest) == Some((c, rest))
  {
    var n := c as int;
    var v, w := 0xd800 + (n - 0x10000) / 1024, 0xdc00 + (n - 0x10000) % 1024;
    AstralText(c);
    ReadSurrogatesReads(n, rest);
    ReadEscapeReads(Hex4(v) + "\\u" + Hex4(w), rest);
    PairRegroup(Hex4(v), Hex4(w), rest);
  }

  lemma AstralText(c: char)
    requires c as int >= 0x10000
    ensures var n := c as int;
      EscapeChar(c) == "\\u" + Hex4(0xd800 + (n - 0x10000) / 1024) + "\\u" + Hex4(0xdc00 + (n - 0x10000) % 1024)
  {
  }

  lemma PairRegroup(hi: string, lo: string, rest: string)
    ensures "\\u" + (hi + "\\u" + lo) == "\\u" + hi + "\\u" + lo
    ensures hi + "\\u" + lo + rest == hi + ("\\u" + (lo + rest))
  {
  }

  lemma ReadEscapeReads(t: string, rest: string)
    ensures ReadChar("\\u" + t + rest) == ReadUnicode(t + rest)
  {
    assert ("\\u" + t + rest)[2..] == t + rest;
  }

  /** Reads string characters up to and including the closing quote. */
  function ReadChars(t: string): (r: Option<(string, string)>)
    ensures r.Some? ==> |r.value.1| < |t|
  {
    if t == "" then None
    else if t[0] == '"' then Some(("", t[1..]))
    else match ReadChar(t)
         case None => None
         case Some(cr) =>
           match ReadChars(cr.1)
           case None => None
           case Some(sr) => Some(([cr.0] + sr.0, sr.1))
  }

  lemma {:induction false} ReadCharsReads(s: string, rest: string)
    ensures ReadChars(EscapeString(s) + "\"" + rest) == Some((s, rest))
  {
    var t := EscapeString(s) + "\"" + rest;
    if s == "" {
      assert t[1..] == rest;
    } else {
      var tail := EscapeString(s[1..]) + "\"" + rest;
      assert t == EscapeChar(s[0]) + tail;
      ReadCharReads(s[0], tail);
      ReadCharsReads(s[1..], rest);
      assert [s[0]] + s[1..] == s;
    }
  }

  // ---------- values ----------

  function Print(v: Value): string
    requires IsJson(v)
    decreases v
  {
    match v
    case Null => "null"
    case Bool(b) => if b then "true" else "false"
    case Int(n) => IntText(n)
    case Float(f) => f
    case Str(s) => Quote(s)
    case Arr(items) => "[" + PrintItems(items) + "]"
    case Obj(ms) => "{" + PrintMembers(ms) + "}"
  }

  function PrintItems(items: seq<Value>): string
    requires forall i | 0 <= i < |items| :: IsJson(items[i])
    decreases items
  {
    if items == [] then ""
    else Print(items[0]) + (if |items| == 1 then "" else "," + PrintItems(items[1..]))
  }

  function PrintMembers(ms: seq<Member>): string
    requires forall i | 0 <= i < |ms| :: IsJson(ms[i].val)
    decreases ms
  {
    if ms == [] then ""
    else Quote(ms[0].key) + ":" + Print(ms[0].val) + (if |ms| == 1 then "" else "," + PrintMembers(ms[1..]))
  }

  function NumberLength(t: string): (n: nat)
    ensures n <= |t|
  {
    if t == "" || !IsNumberChar(t[0]) then 0 else 1 + NumberLength(t[1..])
  }

  function NumberToken(t: string): Option<Value> {
    if t != "" && AllDigits(t) then Some(Int(DigitsValue(t)))
    else if |t| > 1 && t[0] == '-' && AllDigits(t[1..]) then Some(Int(0 - DigitsValue(t[1..])))
    else if IsFloatText(t) then Some(Float(t))
    else None
  }

  function Parse(t: string): (r: Option<(Value, string)>)
    ensures r.Some? ==> |r.value.1| < |t|
    decreases |t|, 0
  {
    if t == "" then None
    else if t[0] == '"' then
      (match ReadChars(t[1..]) case None => None case Some(sr) => Some((Str(sr.0), sr.1)))
    else if t[0] == '[' then
      if |t| > 1 && t[1] == ']' then Some((Arr([]), t[2..]))
      else (match ParseItems(t[1..]) case None => None case Some(ir) => Some((Arr(ir.0), ir.1)))
    else if t[0] == '{' then
      if |t| > 1 && t[1] == '}' then Some((Obj([]), t[2..]))
      else (match ParseMembers(t[1..]) case None => None case Some(mr) => Some((Obj(mr.0), mr.1)))
    else if IsDigit(t[0]) || t[0] == '-' then
      var n := NumberLength(t);
      (match NumberToken(t[..n]) case None => None case Some(v) => Some((v, t[n..])))
    else if "null" <= t then Some((Null, t[4..]))
    else if "true" <= t then Some((Bool(true), t[4..]))
    else if "false" <= t then Some((Bool(false), t[5..]))
    else None
  }

  /** Reads `value , value , ... ]`. */
  function ParseItems(t: string): (r: Option<(seq<Value>, string)>)
    ensures r.Some? ==> |r.value.1| < |t|
    decreases |t|, 1
  {
    match Parse(t)
    case None => None
    case Some(vr) =>
      if vr.1 == "" then None
      else if vr.1[0] == ']' then Some(([vr.0], vr.1[1..]))
      else if vr.1[0] != ',' then None
      else match ParseItems(vr.1[1..])
           case None => None
           case Some(ir) => Some(([vr.0] + ir.0, ir.1))
  }

  /** Reads `"key" : value , ... }`. */
  function ParseMembers(t: string): (r: Option<(seq<Member>, string)>)
    ensures r.Some? ==> |r.value.1| < |t|
    decreases |t|, 1
  {
    if t == "" || t[0] != '"' then None
    else match ReadChars(t[1..])
    case None => None
    case Some(kr) =>
      if kr.1 == "" || kr.1[0] != ':' then None
      else match Parse(kr.1[1..])
      case None => None
      case Some(vr) =>
        if vr.1 == "" then None
        else if vr.1[0] == '}' then Some(([Member(kr.0, vr.0)], vr.1[1..]))
        else if vr.1[0] != ',' then None
        else match ParseMembers(vr.1[1..])
             case None => None
             case Some(mr) => Some(([Member(kr.0, vr.0)] + mr.0, mr.1))
  }

  /** Text that may follow a value: nothing, or a separator or closing bracket. */
  predicate Follows(rest: string) { rest == "" || rest[0] == ',' || rest[0] == ']' || rest[0] == '}' }

  lemma {:induction false} NumberLengthStops(t: string, rest: string)
    requires forall i | 0 <= i < |t| :: IsNumberChar(t[i])
    requires Follows(rest)
    ensures NumberLength(t + rest) == |t|
  {
    if t == "" {
      assert t + rest == rest;
    } else {
      assert (t + rest)[1..] == t[1..] + rest;
      NumberLengthStops(t[1..], rest);
    }
  }

  lemma ParseReadsNumber(t: string, v: Value, rest: string)
    requires t != "" && (IsDigit(t[0]) || t[0] == '-')
    requires forall i | 0 <= i < |t| :: IsNumberChar(t[i])
    requires NumberToken(t) == Some(v)
    requires Follows(rest)
    ensures Parse(t + rest) == Some((v, rest))
  {
    NumberLengthStops(t, rest);
    assert (t + rest)[..|t|] == t && (t + rest)[|t|..] == rest;
  }

  lemma ParseReadsInt(n: int, rest: string)
    requires Follows(rest)
    ensures Parse(IntText(n) + rest) == Some((Int(n), rest))
  {
    var t := IntText(n);
    if n < 0 {
      NatTextValue(-n);
      assert t[1..] == NatText(-n);
      assert !AllDigits(t) by { assert !IsDigit(t[0]); }
    } else {
      NatTextValue(n);
    }
    ParseReadsNumber(t, Int(n), rest);
  }

  lemma ParseReadsFloat(t: FloatText, rest: string)
    requires Follows(rest)
    ensures Parse(t + rest) == Some((Float(t), rest))
  {
    var i :| 0 <= i < |t| && (t[i] == '.' || t[i] == 'e');
    assert !IsDigit(t[i]) && t[i] != '-';
    assert i > 0 ==> t[1..][i - 1] == t[i];
    ParseReadsNumber(t, Float(t), rest);
  }

  /** What is printed is read back exactly, and the reader stops where the value ends. */
  lemma {:induction false} ParsePrint(v: Value, rest: string)
    requires IsJson(v) && Follows(rest)
    ensures Parse(Print(v) + rest) == Some((v, rest))
    decreases v, 1
  {
    match v
    case Int(n) => ParseReadsInt(n, rest);
    case Float(f) => ParseReadsFloat(f, rest);
    case Arr(items) => ParsePrintArray(items, rest);
    case Obj(ms) => ParsePrintObject(ms, rest);
    case _ => ParsePrintScalar(v, rest);
  }

  lemma ParsePrintScalar(v: Value, rest: string)
    requires v.Null? || v.Bool? || v.Str?
    ensures Parse(Print(v) + rest) == Some((v, rest))
  {
    var t := Print(v) + rest;
    match v
    case Null => assert t[4..] == rest;
    case Bool(b) => if b { assert t[4..] == rest; } else { assert t[5..] == rest; }
    case Str(s) =>
      assert t[1..] == EscapeString(s) + "\"" + rest;
      ReadCharsReads(s, rest);
  }

  lemma Bracketed(open: char, p: string, close: char, rest: string)
    ensures var t := [open] + p + [close] + rest;
      |t| >= 2 && t[0] == open && t[1..] == p + [close] + rest
      && (if p == "" then t[1] == close && t[2..] == rest else t[1] == p[0])
  {
  }

  lemma {:induction false} ParsePrintArray(items: seq<Value>, rest: string)
    requires IsJson(Arr(items)) && Follows(rest)
    ensures Parse("[" + PrintItems(items) + "]" + rest) == Some((Arr(items), rest))
    decreases Arr(items), 0
  {
    Bracketed('[', PrintItems(items), ']', rest);
    if items != [] {
      PrintStarts(items[0]);
      ParsePrintItems(items, rest);
    }
  }

  lemma {:induction false} ParsePrintObject(ms: seq<Member>, rest: string)
    requires IsJson(Obj(ms)) && Follows(rest)
    ensures Parse("{" + PrintMembers(ms) + "}" + rest) == Some((Obj(ms), rest))
    decreases Obj(ms), 0
  {
    Bracketed('{', PrintMembers(ms), '}', rest);
    if ms != [] {
      MembersStart(ms);
      ParsePrintMembers(ms, rest);
    }
  }

  /** No value's text begins with a closing bracket. */
  lemma PrintStarts(v: Value)
    requires IsJson(v)
    ensures Print(v) != "" && Print(v)[0] != ']'
  {
  }

  lemma MembersStart(ms: seq<Member>)
    requires ms != [] && forall i | 0 <= i < |ms| :: IsJson(ms[i].val)
    ensures PrintMembers(ms) != "" && PrintMembers(ms)[0] == '"'
  {
  }

  lemma ParseItemsStep(t: string, v: Value, tail: string)
    requires Parse(t) == Some((v, tail)) && tail != ""
    ensures tail[0] == ']' ==> ParseItems(t) == Some(([v], tail[1..]))
    ensures tail[0] == ',' && ParseItems(tail[1..]).Some? ==>
              ParseItems(t) == Some(([v] + ParseItems(tail[1..]).value.0, ParseItems(tail[1..]).value.1))
  {
  }

  lemma Regroup(p: string, q: string, close: string, rest: string)
    ensures p + ("," + q) + close + rest == p + ("," + (q + close + rest))
    ensures p + "" + close + rest == p + (close + rest)
  {
  }

  lemma RegroupFour(a: string, b: string, c: string, d: string)
    ensures a + b + c + d == a + (b + (c + d))
  {
  }

  lemma DropFirst(c: char, t: string)
    ensures ([c] + t)[1..] == t
  {
  }

  lemma {:induction false} ParsePrintItems(items: seq<Value>, rest: string)
    requires items != []
    requires forall i | 0 <= i < |items| :: IsJson(items[i])
    ensures ParseItems(PrintItems(items) + "]" + rest) == Some((items, rest))
    decreases items
  {
    var p := Print(items[0]);
    if |items| == 1 {
      Regroup(p, "", "]", rest);
      DropFirst(']', rest);
      ParsePrint(items[0], "]" + rest);
      ParseItemsStep(p + ("]" + rest), items[0], "]" + rest);
      assert [items[0]] == items;
    } else {
      var more := PrintItems(items[1..]) + "]" + rest;
      Regroup(p, PrintItems(items[1..]), "]", rest);
      DropFirst(',', more);
      ParsePrint(items[0], "," + more);
      ParsePrintItems(items[1..], rest);
      ParseItemsStep(p + ("," + more), items[0], "," + more);
      assert [items[0]] + items[1..] == items;
    }
  }

  /** A text that begins with a quoted key. */
  lemma KeyReads(key: string, rest: string)
    ensures var u := Quote(key) + rest; u != "" && u[0] == '"' && ReadChars(u[1..]) == Some((key, rest))
  {
    var u := Quote(key) + rest;
    assert u[1..] == EscapeString(key) + "\"" + rest;
    ReadCharsReads(key, rest);
  }

  lemma ParseMembersUnfolds(u: string, key: string, rest: string, v: Value, tail: string)
    requires u != "" && u[0] == '"' && ReadChars(u[1..]) == Some((key, ":" + rest))
    requires Parse(rest) == Some((v, tail)) && tail != ""
    ensures tail[0] == '}' ==> ParseMembers(u) == Some(([Member(key, v)], tail[1..]))
    ensures tail[0] == ',' && ParseMembers(tail[1..]).Some? ==>
              ParseMembers(u)
              == Some(([Member(key, v)] + ParseMembers(tail[1..]).value.0, ParseMembers(tail[1..]).value.1))
  {
    DropFirst(':', rest);
  }

  lemma ParseMembersStep(key: string, p: string, v: Value, tail: string)
    requires Parse(p + tail) == Some((v, tail)) && tail != ""
    ensures tail[0] == '}' ==> ParseMembers(Quote(key) + ":" + p + tail) == Some(([Member(key, v)], tail[1..]))
    ensures tail[0] == ',' && ParseMembers(tail[1..]).Some? ==>
              ParseMembers(Quote(key) + ":" + p + tail)
              == Some(([Member(key, v)] + ParseMembers(tail[1..]).value.0, ParseMembers(tail[1..]).value.1))
  {
    RegroupFour(Quote(key), ":", p, tail);
    KeyReads(key, ":" + (p + tail));
    ParseMembersUnfolds(Quote(key) + (":" + (p + tail)), key, p + tail, v, tail);
  }

  /** Reading members from the text gives these and leaves the rest. */
  predicate ReadsMembers(text: string, ms: seq<Member>, rest: string) { ParseMembers(text) == Some((ms, rest)) }

  lemma LastMember(key: string, p: string, v: Value, rest: string)
    requires Parse(p + ("}" + rest)) == Some((v, "}" + rest))
    ensures ReadsMembers(Quote(key) + ":" + p + "" + "}" + rest, [Member(key, v)], rest)
  {
    Regroup(Quote(key) + ":" + p, "", "}", rest);
    DropFirst('}', rest);
    ParseMembersStep(key, p, v, "}" + rest);
  }

  lemma OneMoreMember(key: string, p: string, v: Value, q: string, rest: string, later: seq<Member>)
    requires Parse(p + ("," + (q + "}" + rest))) == Some((v, "," + (q + "}" + rest)))
    requires ReadsMembers(q + "}" + rest, later, rest)
    ensures ReadsMembers(Quote(key) + ":" + p + ("," + q) + "}" + rest, [Member(key, v)] + later, rest)
  {
    Regroup(Quote(key) + ":" + p, q, "}", rest);
    DropFirst(',', q + "}" + rest);
    ParseMembersStep(key, p, v, "," + (q + "}" + rest));
  }

  /** The first member and the rest. */
  lemma MembersSplit(ms: seq<Member>)
    requires ms != [] && forall i | 0 <= i < |ms| :: IsJson(ms[i].val)
    ensures [Member(ms[0].key, ms[0].val)] + ms[1..] == ms && forall i | 0 <= i < |ms[1..]| :: IsJson(ms[1..][i].val)
    ensures var k, p := Quote(ms[0].key) + ":", Print(ms[0].val);
      PrintMembers(ms) == k + p + (if |ms| == 1 then "" else "," + PrintMembers(ms[1..]))
  {
    forall i | 0 <= i < |ms[1..]| ensures ms[1..][i] == ms[i + 1] {}
  }

  lemma {:induction false} ParsePrintMembers(ms: seq<Member>, rest: string)
    requires ms != []
    requires forall i | 0 <= i < |ms| :: IsJson(ms[i].val)
    ensures ReadsMembers(PrintMembers(ms) + "}" + rest, ms, rest)
    decreases ms
  {
    var key, v := ms[0].key, ms[0].val;
    MembersSplit(ms);
    if |ms| == 1 {
      ParsePrint(v, "}" + rest);
      LastMember(key, Print(v), v, rest);
      assert ms == [Member(key, v)];
    } else {
      var q := PrintMembers(ms[1..]);
      ParsePrint(v, "," + (q + "}" + rest));
      ParsePrintMembers(ms[1..], rest);
      OneMoreMember(key, Print(v), v, q, rest, ms[1..]);
    }
  }
}
