/**
 * Go's `%q` verb on strings (`strconv.Quote`), and a reader for the quoted form
 * that serves as its inverse. Every non-ASCII code point is treated as printable.
 */
module GoQuote {
  import opened Prelude

  /** The digit for `n` in `strconv`'s lower-case hexadecimal alphabet. */
  function HexDigit(n: nat): (c: char)
    requires n < 16
  {
    if n < 10 then ('0' as int + n) as char else ('a' as int + n - 10) as char
  }

  predicate IsHex(c: char) {
    '0' <= c <= '9' || 'a' <= c <= 'f' || 'A' <= c <= 'F'
  }

  function HexValue(c: char): (n: nat)
    requires IsHex(c)
    ensures n < 16
  {
    if '0' <= c <= '9' then c as int - '0' as int
    else if 'a' <= c <= 'f' then c as int - 'a' as int + 10
    else c as int - 'A' as int + 10
  }

  /** The letter of the one-letter escape for a control code, if it has one. */
  function NamedEscape(c: char): Option<char> {
    if c as int == 7 then Some('a')
    else if c as int == 8 then Some('b')
    else if c as int == 12 then Some('f')
    else if c == '\n' then Some('n')
    else if c == '\r' then Some('r')
    else if c == '\t' then Some('t')
    else if c as int == 11 then Some('v')
    else None
  }

  /** The control code a one-letter escape stands for. */
  function EscapedCode(e: char): Option<char> {
    if e == 'a' then Some(7 as char)
    else if e == 'b' then Some(8 as char)
    else if e == 'f' then Some(12 as char)
    else if e == 'n' then Some('\n')
    else if e == 'r' then Some('\r')
    else if e == 't' then Some('\t')
    else if e == 'v' then Some(11 as char)
    else None
  }

  /**
   * How `strconv.Quote` writes one code point: the quote and the backslash are
   * backslashed, printable ASCII is kept, seven control codes get their letter
   * escape, the other control codes and DEL become `\xHH`.
   */
  function EscapeChar(c: char): (r: string)
    ensures |r| >= 1
  {
    if c == '"' || c == '\\' then ['\\', c]
    else if ' ' <= c <= '~' then [c]
    else if NamedEscape(c).Some? then ['\\', NamedEscape(c).value]
    else if c < ' ' || c as int == 0x7F then ['\\', 'x', HexDigit(c as int / 16), HexDigit(c as int % 16)]
    else [c]
  }

  function Escaped(s: string): string
    decreases |s|
  {
    if s == [] then [] else EscapeChar(s[0]) + Escaped(s[1..])
  }

  /** `fmt.Sprintf("%q", s)` */
  function Quote(s: string): string {
    "\"" + Escaped(s) + "\""
  }

  /**
   * Reads the body of a double-quoted literal up to its closing quote, undoing the
   * escapes above; gives the decoded text and what follows the closing quote.
   */
  function ReadBody(s: string): Option<(string, string)>
    decreases |s|
  {
    if s == [] then None
    else if s[0] == '"' then Some(("", s[1..]))
    else if s[0] != '\\' then Prepend(s[0], ReadBody(s[1..]))
    else if |s| < 2 then None
    else if s[1] == '"' || s[1] == '\\' then Prepend(s[1], ReadBody(s[2..]))
    else if EscapedCode(s[1]).Some? then Prepend(EscapedCode(s[1]).value, ReadBody(s[2..]))
    else if s[1] == 'x' && |s| >= 4 && IsHex(s[2]) && IsHex(s[3]) then
      Prepend((HexValue(s[2]) * 16 + HexValue(s[3])) as char, ReadBody(s[4..]))
    else None
  }

  function Prepend(c: char, r: Option<(string, string)>): Option<(string, string)> {
    match r
    case None => None
    case Some((body, rest)) => Some(([c] + body, rest))
  }

  /** Reads one double-quoted literal at the start of `s`. */
  function ReadQuoted(s: string): Option<(string, string)> {
    if s != [] && s[0] == '"' then ReadBody(s[1..]) else None
  }

  /** The reader takes back exactly one escaped code point. */
  lemma ReadEscapeChar(c: char, t: string)
    ensures ReadBody(EscapeChar(c) + t) == Prepend(c, ReadBody(t))
  {
    if c == '"' || c == '\\' {
      ReadBackslashed(c, c, t);
    } else if ' ' <= c <= '~' {
      ReadPlain(c, t);
    } else if NamedEscape(c).Some? {
      ReadBackslashed(c, NamedEscape(c).value, t);
    } else if c < ' ' || c as int == 0x7F {
      ReadHex(c, t);
    } else {
      ReadPlain(c, t);
    }
  }

  lemma ReadPlain(c: char, t: string)
    requires c != '"' && c != '\\' && EscapeChar(c) == [c]
    ensures ReadBody(EscapeChar(c) + t) == Prepend(c, ReadBody(t))
  {
    assert ([c] + t)[1..] == t;
  }

  lemma ReadBackslashed(c: char, e: char, t: string)
    requires EscapeChar(c) == ['\\', e]
    requires (e == c && (c == '"' || c == '\\')) || (EscapedCode(e) == Some(c) && e != '"' && e != '\\')
    ensures ReadBody(EscapeChar(c) + t) == Prepend(c, ReadBody(t))
  {
    var s := ['\\', e] + t;
    assert s[0] == '\\' && s[1] == e && s[2..] == t;
  }

  lemma ReadHex(c: char, t: string)
    requires c < ' ' || c as int == 0x7F
    requires NamedEscape(c).None?
    ensures ReadBody(EscapeChar(c) + t) == Prepend(c, ReadBody(t))
  {
    var hi, lo := c as int / 16, c as int % 16;
    var s := ['\\', 'x', HexDigit(hi), HexDigit(lo)] + t;
    assert EscapeChar(c) + t == s;
    assert s[0] == '\\' && s[1] == 'x' && s[4..] == t;
    assert HexValue(HexDigit(hi)) == hi;
    assert HexValue(HexDigit(lo)) == lo;
    assert EscapedCode('x').None?;
  }

  lemma {:induction false} ReadEscaped(s: string, rest: string)
    ensures ReadBody(Escaped(s) + "\"" + rest) == Some((s, rest))
    decreases |s|
  {
    if s == [] {
      assert Escaped(s) + "\"" + rest == "\"" + rest;
      assert ("\"" + rest)[1..] == rest;
    } else {
      assert Escaped(s) + "\"" + rest == EscapeChar(s[0]) + (Escaped(s[1..]) + "\"" + rest);
      ReadEscapeChar(s[0], Escaped(s[1..]) + "\"" + rest);
      ReadEscaped(s[1..], rest);
      assert [s[0]] + s[1..] == s;
    }
  }

  /** Round trip: the reader recovers the quoted text and leaves whatever followed untouched. */
  lemma QuoteRoundTrip(s: string, rest: string)
    ensures ReadQuoted(Quote(s) + rest) == Some((s, rest))
  {
    assert (Quote(s) + rest)[1..] == Escaped(s) + "\"" + rest;
    ReadEscaped(s, rest);
  }

  /** A quoted literal starts with a quote and ends with one. */
  lemma QuoteShape(s: string)
    ensures |Quote(s)| >= 2 && Quote(s)[0] == '"' && Quote(s)[|Quote(s)| - 1] == '"'
  {
  }
}
