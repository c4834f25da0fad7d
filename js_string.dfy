/** How the window's JavaScript engine reads the single-quoted string
    literal of a status call (section 12.9.4, String Literals, of ECMAScript
    2024), and the escaping that makes every message read back intact. */
module JsString {

  /** The outcome of reading a literal from just after its opening quote:
      the value and the text after the closing quote; or a literal that is
      not well formed (the text ends before the closing quote, or a line
      feed or carriage return appears unescaped); or an escape this reader
      does not interpret (numeric, hexadecimal and Unicode escapes, and
      line continuations). */
  datatype Reading = Closed(value: string, rest: string) | Broken | Unsupported

  /** A character the literal may not contain unescaped. */
  predicate IsLineBreak(c: char) {
    c == '\n' || c == '\r'
  }

  /** `SingleEscapeCharacter`: the escapes with a fixed meaning. */
  predicate IsSingleEscape(c: char) {
    c == '\'' || c == '"' || c == '\\' || c == 'b' || c == 'f' || c == 'n' || c == 'r' || c == 't' || c == 'v'
  }

  function SingleEscapeValue(c: char): char
    requires IsSingleEscape(c)
  {
    if c == 'b' then 8 as char
    else if c == 'f' then 12 as char
    else if c == 'n' then '\n'
    else if c == 'r' then '\r'
    else if c == 't' then '\t'
    else if c == 'v' then 11 as char
    else c
  }

  /** The characters after a backslash this reader leaves to a fuller one. */
  predicate IsOtherEscapeStart(c: char) {
    ('0' <= c <= '9') || c == 'x' || c == 'u' || IsLineBreak(c)
    || c == 0x2028 as char || c == 0x2029 as char
  }

  function Prepend(c: char, r: Reading): Reading {
    match r
    case Closed(v, rest) => Closed([c] + v, rest)
    case _ => r
  }

  /** Reads the body of a single-quoted literal. A backslash followed by any
      other character stands for that character (`NonEscapeCharacter`). */
  function ReadLiteral(s: string): Reading {
    if s == [] then Broken
    else if s[0] == '\'' then Closed([], s[1..])
    else if IsLineBreak(s[0]) then Broken
    else if s[0] == '\\' then
      if |s| < 2 then Broken
      else if IsSingleEscape(s[1]) then Prepend(SingleEscapeValue(s[1]), ReadLiteral(s[2..]))
      else if IsOtherEscapeStart(s[1]) then Unsupported
      else Prepend(s[1], ReadLiteral(s[2..]))
    else Prepend(s[0], ReadLiteral(s[1..]))
  }

  /** An ordinary character is read as itself. */
  lemma ReadPlainChar(c: char, t: string)
    requires c != '\'' && c != '\\' && !IsLineBreak(c)
    ensures ReadLiteral([c] + t) == Prepend(c, ReadLiteral(t))
  {
    assert ([c] + t)[1..] == t;
  }

  /** A backslash before a character that starts no escape is dropped. */
  lemma ReadNonEscape(c: char, t: string)
    requires !IsSingleEscape(c) && !IsOtherEscapeStart(c)
    ensures ReadLiteral(['\\', c] + t) == Prepend(c, ReadLiteral(t))
  {
    assert (['\\', c] + t)[2..] == t;
  }

  /** How one character of a message is written inside the literal. */
  function EscapeChar(c: char): string {
    if c == '\\' then "\\\\"
    else if c == '\'' then "\\'"
    else if c == '\n' then "\\n"
    else if c == '\r' then "\\r"
    else [c]
  }

  /** The escaping a message needs to sit inside a single-quoted literal:
      backslashes, quotes and the two line breaks are written as escapes. */
  function EscapeJs(m: string): string {
    if m == [] then [] else EscapeChar(m[0]) + EscapeJs(m[1..])
  }

  /** Every message, whatever it contains, reads back intact, and the
      literal closes exactly at the quote written after it. */
  lemma {:induction false} EscapeJsReadsBack(m: string, rest: string)
    ensures ReadLiteral(EscapeJs(m) + "'" + rest) == Closed(m, rest)
  {
    if m == [] {
      assert EscapeJs(m) + "'" + rest == "'" + rest;
    } else {
      var tail := EscapeJs(m[1..]) + "'" + rest;
      EscapeJsReadsBack(m[1..], rest);
      var e := EscapeChar(m[0]);
      assert EscapeJs(m) + "'" + rest == e + tail;
      if |e| == 2 {
        assert (e + tail)[2..] == tail;
        assert SingleEscapeValue(e[1]) == m[0];
      } else {
        assert (e + tail)[1..] == tail;
      }
      assert [m[0]] + m[1..] == m;
    }
  }
}
