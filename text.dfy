/** String helpers of the Python runtime that the download API relies on:
    `str.isspace`/`str.strip`, the quote escaping done before a status
    message is embedded in a JavaScript string literal, and the decimal
    rendering of an integer in an f-string. */
module Text {

  /** Python's `str.isspace()` for one character: the code points whose
      bidirectional class is WS, B or S, or whose category is Zs. */
  predicate IsSpace(c: char) {
    var n := c as int;
    (0x09 <= n <= 0x0D) || (0x1C <= n <= 0x20) || n == 0x85 || n == 0xA0
    || n == 0x1680 || (0x2000 <= n <= 0x200A) || n == 0x2028 || n == 0x2029
    || n == 0x202F || n == 0x205F || n == 0x3000
  }

  /** Every character is whitespace (this includes the empty string). */
  predicate IsBlank(s: string) {
    forall i :: 0 <= i < |s| ==> IsSpace(s[i])
  }

  /** The number of whitespace characters `s` starts with. */
  function LeadingSpaces(s: string): (n: nat)
    ensures n <= |s| && IsBlank(s[..n])
    ensures n < |s| ==> !IsSpace(s[n])
  {
    if s != [] && IsSpace(s[0]) then
      var n := 1 + LeadingSpaces(s[1..]);
      assert s[..n] == [s[0]] + s[1..][..n - 1];
      n
    else 0
  }

  /** Scanning back from `j`, but not past `lo`, over whitespace: where the
      text before the trailing whitespace ends. */
  function TextEnd(s: string, lo: nat, j: nat): (e: nat)
    requires lo <= j <= |s| && IsBlank(s[j..])
    ensures lo <= e <= j && IsBlank(s[e..])
    ensures lo < e ==> !IsSpace(s[e - 1])
    decreases j
  {
    if lo < j && IsSpace(s[j - 1]) then
      assert s[j - 1..] == [s[j - 1]] + s[j..];
      TextEnd(s, lo, j - 1)
    else j
  }

  /** Python's `s.strip()` with no argument: the text between the leading
      and the trailing whitespace. */
  function Strip(s: string): string {
    var i := LeadingSpaces(s);
    s[i..TextEnd(s, i, |s|)]
  }

  /** `strip` cuts `s` into blank margins around a slice that neither starts
      nor ends with whitespace; `i` is where the slice starts. */
  lemma StripIsSlice(s: string) returns (i: nat)
    ensures i + |Strip(s)| <= |s| && Strip(s) == s[i..i + |Strip(s)|]
    ensures IsBlank(s[..i]) && IsBlank(s[i + |Strip(s)|..])
    ensures Strip(s) != [] ==> !IsSpace(Strip(s)[0]) && !IsSpace(Strip(s)[|Strip(s)| - 1])
  {
    i := LeadingSpaces(s);
    assert s[|s|..] == [];
    var e := TextEnd(s, i, |s|);
    assert Strip(s) == s[i..e];
  }

  /** A string strips to nothing exactly when it is blank; this is the test
      `not url.strip()`. */
  lemma StripEmptyIffBlank(s: string)
    ensures Strip(s) == [] <==> IsBlank(s)
  {
    var i := StripIsSlice(s);
    if Strip(s) == [] {
      forall k | 0 <= k < |s| ensures IsSpace(s[k]) {
        if k < i { assert s[k] == s[..i][k]; } else { assert s[k] == s[i..][k - i]; }
      }
    } else {
      assert s[i] == Strip(s)[0];
    }
  }

  /** Stripping twice changes nothing more. */
  lemma StripIdempotent(s: string)
    ensures Strip(Strip(s)) == Strip(s)
  {
    var r := Strip(s);
    var i := StripIsSlice(s);
    if r != [] {
      assert LeadingSpaces(r) == 0;
      assert r[|r|..] == [];
      assert TextEnd(r, 0, |r|) == |r|;
    } else {
      assert LeadingSpaces(r) == 0;
    }
  }

  /** `message.replace("'", "\\'")`: every single quote becomes a backslash
      followed by the quote; every other character is kept, in order. */
  function EscapeQuotes(m: string): string {
    if m == [] then []
    else (if m[0] == '\'' then "\\'" else [m[0]]) + EscapeQuotes(m[1..])
  }

  /** A message without quotes is left as it is, and in an escaped message
      every quote follows a backslash. */
  lemma {:induction false} EscapeQuotesFacts(m: string)
    ensures (forall i :: 0 <= i < |m| ==> m[i] != '\'') ==> EscapeQuotes(m) == m
    ensures forall i :: 0 <= i < |EscapeQuotes(m)| && EscapeQuotes(m)[i] == '\'' ==>
      0 < i && EscapeQuotes(m)[i - 1] == '\\'
  {
    if m != [] {
      EscapeQuotesFacts(m[1..]);
      var head := if m[0] == '\'' then "\\'" else [m[0]];
      var tail := EscapeQuotes(m[1..]);
      assert EscapeQuotes(m) == head + tail;
      if forall i :: 0 <= i < |m| ==> m[i] != '\'' {
        assert forall i :: 0 <= i < |m[1..]| ==> m[1..][i] == m[i + 1];
        assert m == [m[0]] + m[1..];
      }
      forall i | 0 <= i < |head + tail| && (head + tail)[i] == '\''
        ensures 0 < i && (head + tail)[i - 1] == '\\'
      {
        if i >= |head| {
          assert (head + tail)[i] == tail[i - |head|];
          if i > |head| { assert (head + tail)[i - 1] == tail[i - 1 - |head|]; }
        }
      }
    }
  }

  /** The inverse reading of `EscapeQuotes`: a backslash directly followed by
      a quote stands for the quote, every other character for itself. */
  function UnescapeQuotes(r: string): string {
    if r == [] then []
    else if |r| >= 2 && r[0] == '\\' && r[1] == '\'' then "'" + UnescapeQuotes(r[2..])
    else [r[0]] + UnescapeQuotes(r[1..])
  }

  /** The escaping loses nothing: reading it back yields the message. */
  lemma {:induction false} EscapeRoundTrip(m: string)
    ensures UnescapeQuotes(EscapeQuotes(m)) == m
  {
    if m != [] {
      var tail := EscapeQuotes(m[1..]);
      EscapeRoundTrip(m[1..]);
      EscapeQuotesFacts(m[1..]);
      if m[0] == '\'' {
        assert EscapeQuotes(m) == "\\'" + tail;
        assert (("\\'" + tail)[2..]) == tail;
      } else {
        assert EscapeQuotes(m) == [m[0]] + tail;
        assert tail != [] ==> tail[0] != '\'';
        assert ([m[0]] + tail)[1..] == tail;
      }
    }
  }

  /** The decimal digit character for `d`. */
  function DigitChar(d: nat): char
    requires d < 10
  {
    "0123456789"[d]
  }

  predicate IsDigit(c: char) {
    '0' <= c <= '9'
  }

  /** The decimal rendering of a natural number, as `str(n)` prints it: at
      least one digit, all digits, and no leading zero unless `n` is 0. */
  function NatToDecimal(n: nat): (r: string)
    ensures |r| >= 1 && forall i :: 0 <= i < |r| ==> IsDigit(r[i])
    ensures r[0] == '0' ==> n == 0
  {
    if n < 10 then [DigitChar(n)] else NatToDecimal(n / 10) + [DigitChar(n % 10)]
  }

  /** `str(i)` for a Python int: a minus sign before the digits of a
      negative number. */
  function IntToDecimal(i: int): string {
    if i < 0 then "-" + NatToDecimal(-i) else NatToDecimal(i)
  }

  /** The value of a string of decimal digits. */
  function ParseNat(s: string): nat
    requires forall i :: 0 <= i < |s| ==> IsDigit(s[i])
  {
    if s == [] then 0
    else
      assert IsDigit(s[|s| - 1]);
      ParseNat(s[..|s| - 1]) * 10 + ((s[|s| - 1] as int) - ('0' as int))
  }

  /** One or more decimal digits, optionally after a minus sign. */
  predicate IsDecimal(s: string) {
    if s != [] && s[0] == '-' then |s| >= 2 && forall i :: 1 <= i < |s| ==> IsDigit(s[i])
    else |s| >= 1 && forall i :: 0 <= i < |s| ==> IsDigit(s[i])
  }

  /** The integer an optionally signed string of decimal digits denotes. */
  function ParseInt(s: string): int
    requires IsDecimal(s)
  {
    if s[0] == '-' then 0 - ParseNat(s[1..]) else ParseNat(s)
  }

  lemma {:induction false} NatDecimalRoundTrip(n: nat)
    ensures ParseNat(NatToDecimal(n)) == n
  {
    if n >= 10 {
      var s := NatToDecimal(n);
      NatDecimalRoundTrip(n / 10);
      assert s[..|s| - 1] == NatToDecimal(n / 10);
    }
  }

  /** The decimal rendering of an integer reads back as that integer. */
  lemma IntDecimalRoundTrip(i: int)
    ensures IsDecimal(IntToDecimal(i)) && ParseInt(IntToDecimal(i)) == i
  {
    var d := NatToDecimal(if i < 0 then -i else i);
    NatDecimalRoundTrip(if i < 0 then -i else i);
    if i < 0 {
      assert ("-" + d)[1..] == d;
      assert forall k :: 1 <= k < |"-" + d| ==> ("-" + d)[k] == d[k - 1];
    }
  }
}
