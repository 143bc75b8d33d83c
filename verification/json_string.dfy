/**
 * JSON string literals (section 7 of RFC 8259): escaping text into a
 * literal's body, and reading a body back the way `JSON.parse` does.
 */
module JsonString {
  import opened Wrappers

  predicate IsControl(c: char) {
    (c as int) < 0x20
  }

  /** A character that may stand unescaped inside a string literal. */
  predicate Unescaped(c: char) {
    c != '"' && c != '\\' && !IsControl(c)
  }

  /** Text that can be pasted between quotes as is. */
  predicate NeedsNoEscape(s: string) {
    forall i :: 0 <= i < |s| ==> Unescaped(s[i])
  }

  function HexDigit(d: nat): (c: char)
    requires d < 16
  {
    if d < 10 then (('0' as int) + d) as char else (('a' as int) + d - 10) as char
  }

  function HexValue(c: char): (r: Option<nat>)
    ensures r.Some? ==> r.value < 16
  {
    if '0' <= c <= '9' then Some((c as int) - ('0' as int))
    else if 'a' <= c <= 'f' then Some((c as int) - ('a' as int) + 10)
    else if 'A' <= c <= 'F' then Some((c as int) - ('A' as int) + 10)
    else None
  }

  /** The escape sequence for one character: `\"`, `\\`, `\u00XX` for controls, else itself. */
  function EscapeChar(c: char): string {
    if c == '"' then ['\\', '"']
    else if c == '\\' then ['\\', '\\']
    else if IsControl(c) then ['\\', 'u', '0', '0', HexDigit((c as int) / 16), HexDigit((c as int) % 16)]
    else [c]
  }

  function Escape(s: string): string
    decreases |s|
  {
    if |s| == 0 then "" else EscapeChar(s[0]) + Escape(s[1..])
  }

  /** The character a two-character escape `\e` stands for. */
  function ShortEscape(e: char): Option<char> {
    if e == '"' then Some('"')
    else if e == '\\' then Some('\\')
    else if e == '/' then Some('/')
    else if e == 'b' then Some(8 as char)
    else if e == 'f' then Some(12 as char)
    else if e == 'n' then Some('\n')
    else if e == 'r' then Some('\r')
    else if e == 't' then Some('\t')
    else None
  }

  /** The character four hex digits `\uXXXX` stand for; surrogate halves are not decoded. */
  function CodeUnit(h: string): Option<char>
    requires |h| == 4
  {
    match (HexValue(h[0]), HexValue(h[1]), HexValue(h[2]), HexValue(h[3]))
    case (Some(a), Some(b), Some(c), Some(d)) =>
      var v := ((a * 16 + b) * 16 + c) * 16 + d;
      if 0xD800 <= v < 0xE000 then None else Some(v as char)
    case _ => None
  }

  /** A decoded literal and the text after its closing quote. */
  datatype Literal = Literal(text: string, rest: string)

  function Prepend(c: char, r: Option<Literal>): Option<Literal> {
    match r
    case None => None
    case Some(l) => Some(Literal([c] + l.text, l.rest))
  }

  /**
   * Reads the body of a string literal whose opening quote is already
   * consumed, up to the first unescaped quote.
   */
  function ReadBody(s: string): Option<Literal>
    decreases |s|
  {
    if |s| == 0 then None
    else if s[0] == '"' then Some(Literal("", s[1..]))
    else if s[0] == '\\' then
      if |s| < 2 then None
      else if s[1] == 'u' then
        if |s| < 6 then None
        else
          match CodeUnit(s[2..6])
          case None => None
          case Some(c) => Prepend(c, ReadBody(s[6..]))
      else
        match ShortEscape(s[1])
        case None => None
        case Some(c) => Prepend(c, ReadBody(s[2..]))
    else if IsControl(s[0]) then None
    else Prepend(s[0], ReadBody(s[1..]))
  }

  lemma ReadEscapedChar(c: char, tail: string)
    ensures ReadBody(EscapeChar(c) + tail) == Prepend(c, ReadBody(tail))
  {
  }

  /** Reading back an escaped text gives the text, and stops right after its closing quote. */
  lemma {:induction false} EscapeRoundTrip(m: string, rest: string)
    ensures ReadBody(Escape(m) + "\"" + rest) == Some(Literal(m, rest))
    decreases |m|
  {
    if |m| == 0 {
      assert Escape(m) + "\"" + rest == "\"" + rest;
      assert ("\"" + rest)[1..] == rest;
    } else {
      var tail := Escape(m[1..]) + "\"" + rest;
      assert Escape(m) + "\"" + rest == EscapeChar(m[0]) + tail;
      ReadEscapedChar(m[0], tail);
      EscapeRoundTrip(m[1..], rest);
      assert [m[0]] + m[1..] == m;
    }
  }

  /** Text without quotes, backslashes or controls is its own escape. */
  lemma {:induction false} EscapeIdentityOnPlain(m: string)
    requires NeedsNoEscape(m)
    ensures Escape(m) == m
    decreases |m|
  {
    if |m| > 0 {
      EscapeIdentityOnPlain(m[1..]);
      assert [m[0]] + m[1..] == m;
    }
  }

  /** Plain text pasted between quotes reads back as itself. */
  lemma RawTextRoundTrip(m: string, rest: string)
    requires NeedsNoEscape(m)
    ensures ReadBody(m + "\"" + rest) == Some(Literal(m, rest))
  {
    EscapeIdentityOnPlain(m);
    EscapeRoundTrip(m, rest);
  }
}
