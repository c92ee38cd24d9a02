/**
 * How `JSON.stringify` writes a string value (the QuoteJSONString operation of
 * ECMAScript 2019 and later), and a reference reader for JSON string literals
 * that undoes it. Dafny characters are Unicode scalar values, so the lone
 * surrogates that JSON.stringify also escapes cannot occur here.
 */
module JsonText {
  import opened Wrappers

  /** Lower-case hexadecimal digit, as JSON.stringify writes in `\u00XX`. */
  function HexDigit(d: nat): (c: char)
    requires d < 16
  {
    if d < 10 then (48 + d) as char else (87 + d) as char
  }

  predicate IsHexDigit(c: char) {
    '0' <= c <= '9' || 'a' <= c <= 'f' || 'A' <= c <= 'F'
  }

  function HexValue(c: char): (v: nat)
    requires IsHexDigit(c)
    ensures v < 16
  {
    if '0' <= c <= '9' then c as int - 48
    else if 'a' <= c <= 'f' then c as int - 87
    else c as int - 55
  }

  /** The text JSON.stringify emits for one character inside a string literal. */
  function EscapeChar(c: char): string {
    if c == '"' then "\\\""
    else if c == '\\' then "\\\\"
    else if c as int == 0x08 then "\\b"
    else if c as int == 0x0C then "\\f"
    else if c == '\n' then "\\n"
    else if c == '\r' then "\\r"
    else if c == '\t' then "\\t"
    else if c as int < 0x20 then "\\u00" + [HexDigit(c as int / 16), HexDigit(c as int % 16)]
    else [c]
  }

  function Escape(s: string): string {
    if s == [] then [] else EscapeChar(s[0]) + Escape(s[1..])
  }

  /** `JSON.stringify(s)` for a string `s`. */
  function Quote(s: string): string {
    "\"" + Escape(s) + "\""
  }

  /** Prefixes a decoded character to the result of reading the rest. */
  function Cons(c: char, r: Option<(string, string)>): Option<(string, string)> {
    match r
    case None => None
    case Some((text, rest)) => Some(([c] + text, rest))
  }

  /** Reads the escape sequence at the head of `s`: the character it denotes and its length. */
  function ReadEscape(s: string): (r: Option<(char, nat)>)
    requires 2 <= |s| && s[0] == '\\'
    ensures r.Some? ==> 2 <= r.value.1 <= |s|
  {
    var e := s[1];
    if e == '"' || e == '\\' || e == '/' then Some((e, 2))
    else if e == 'b' then Some((0x08 as char, 2))
    else if e == 'f' then Some((0x0C as char, 2))
    else if e == 'n' then Some(('\n', 2))
    else if e == 'r' then Some(('\r', 2))
    else if e == 't' then Some(('\t', 2))
    else if e == 'u' && 6 <= |s| && IsHexDigit(s[2]) && IsHexDigit(s[3]) && IsHexDigit(s[4]) && IsHexDigit(s[5]) then
      var v := HexValue(s[2]) * 4096 + HexValue(s[3]) * 256 + HexValue(s[4]) * 16 + HexValue(s[5]);
      if v < 0xD800 || 0xE000 <= v then Some((v as char, 6)) else None
    else None
  }

  /**
   * Reads the inside of a JSON string literal up to and including its closing
   * quote; yields the decoded text and whatever follows the quote.
   */
  function ReadStringBody(s: string): Option<(string, string)>
    decreases |s|
  {
    if |s| == 0 then None
    else if s[0] == '"' then Some(([], s[1..]))
    else if s[0] == '\\' then
      if |s| < 2 then None
      else match ReadEscape(s)
        case None => None
        case Some((c, k)) => Cons(c, ReadStringBody(s[k..]))
    else if s[0] as int < 0x20 then None
    else Cons(s[0], ReadStringBody(s[1..]))
  }

  /** Reads one JSON string literal at the head of `s`. */
  function Unquote(s: string): Option<(string, string)> {
    if 0 < |s| && s[0] == '"' then ReadStringBody(s[1..]) else None
  }

  /** A reader meets each escape JSON.stringify writes and decodes it to the original character. */
  lemma ReadEscapeChar(c: char, t: string)
    ensures ReadStringBody(EscapeChar(c) + t) == Cons(c, ReadStringBody(t))
  {
  }

  /** Reading back the escaped text of `m` followed by a closing quote yields `m` and the rest. */
  lemma {:induction false} ReadEscaped(m: string, rest: string)
    ensures ReadStringBody(Escape(m) + "\"" + rest) == Some((m, rest))
  {
    if m == [] {
      assert Escape(m) + "\"" + rest == "\"" + rest;
    } else {
      ReadEscaped(m[1..], rest);
      assert Escape(m) + "\"" + rest == EscapeChar(m[0]) + (Escape(m[1..]) + "\"" + rest);
      ReadEscapeChar(m[0], Escape(m[1..]) + "\"" + rest);
      assert [m[0]] + m[1..] == m;
    }
  }

  /** Round trip: the literal JSON.stringify writes for `m` reads back as `m`, whatever follows it. */
  lemma QuoteRoundTrip(m: string, rest: string)
    ensures Unquote(Quote(m) + rest) == Some((m, rest))
  {
    var s := Quote(m) + rest;
    assert s[1..] == Escape(m) + "\"" + rest;
    ReadEscaped(m, rest);
  }
}
