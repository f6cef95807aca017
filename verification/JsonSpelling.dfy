/** What JSON text looks like, character by character and value by value. */
module JsonSpelling {
  import opened Json
  import opened JsonText

  /** The characters written with a letter after the backslash, and those written as they are. */
  lemma ShortEscapes(c: char)
    ensures EscapeChar('"') == "\\\"" && EscapeChar('\\') == "\\\\"
    ensures EscapeChar('\n') == "\\n" && EscapeChar('\r') == "\\r" && EscapeChar('\t') == "\\t"
    ensures EscapeChar(8 as char) == "\\b" && EscapeChar(12 as char) == "\\f"
    ensures ' ' <= c <= '~' && c != '"' && c != '\\' ==> EscapeChar(c) == [c]
  {
  }

  predicate LowerHex(t: string, n: nat) {
    ReadHex4(t) == Some(n) && |t| == 4 && forall i | 0 <= i < 4 :: t[i] in "0123456789abcdef"
  }

  lemma Hex4Lower(n: nat)
    requires n < 0x10000
    ensures LowerHex(Hex4(n), n)
  {
    ReadHex4Reads(n, "");
    assert Hex4(n) + "" == Hex4(n);
    forall i | 0 <= i < 4 ensures Hex4(n)[i] in "0123456789abcdef" { HexDigitLower(Hex4(n)[i]); }
  }

  lemma HexDigitLower(c: char)
    requires IsHex(c)
    ensures c in "0123456789abcdef"
  {
    var all := "0123456789abcdef";
    assert all[HexDigitValue(c)] == c;
  }

  /** Every other character is written as four lower-case hexadecimal digits after a backslash and
      `u`, or as a surrogate pair of such. */
  lemma LongEscapes(c: char) returns (hi: string, lo: string)
    requires !IsEscapedShort(c) && !(' ' <= c <= '~')
    ensures var n := c as int;
      if n < 0x10000 then EscapeChar(c) == "\\u" + hi && LowerHex(hi, n)
      else EscapeChar(c) == "\\u" + hi + "\\u" + lo
           && LowerHex(hi, 0xd800 + (n - 0x10000) / 1024) && LowerHex(lo, 0xdc00 + (n - 0x10000) % 1024)
  {
    var n := c as int;
    if n < 0x10000 {
      hi, lo := Hex4(n), "";
      Hex4Lower(n);
    } else {
      hi, lo := Hex4(0xd800 + (n - 0x10000) / 1024), Hex4(0xdc00 + (n - 0x10000) % 1024);
      Hex4Lower(0xd800 + (n - 0x10000) / 1024);
      Hex4Lower(0xdc00 + (n - 0x10000) % 1024);
    }
  }

  /** The text of each kind of value, with nothing between its parts but the separators. */
  lemma PrintSpelled(v: Value, k: string, rest: seq<Value>, more: seq<Member>)
    requires IsJson(v) && IsJson(Arr(rest)) && IsJson(Obj(more)) && rest != [] && more != []
    ensures Print(Null) == "null" && Print(Bool(true)) == "true" && Print(Bool(false)) == "false"
    ensures Print(Str(k)) == "\"" + EscapeString(k) + "\""
    ensures Print(Arr([])) == "[]" && Print(Arr([v])) == "[" + Print(v) + "]"
    ensures Print(Obj([])) == "{}" && Print(Obj([Member(k, v)])) == "{" + (Print(Str(k)) + ":" + Print(v)) + "}"
    ensures PrintItems([v] + rest) == Print(v) + ("," + PrintItems(rest))
    ensures PrintMembers([Member(k, v)] + more) == Print(Str(k)) + ":" + Print(v) + ("," + PrintMembers(more))
  {
    assert ([v] + rest)[1..] == rest && ([Member(k, v)] + more)[1..] == more;
    assert PrintItems([v]) == Print(v) && PrintMembers([Member(k, v)]) == Quote(k) + ":" + Print(v);
  }
}
