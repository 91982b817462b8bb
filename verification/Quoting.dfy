/** Reading back what the %q verb prints: config headers and profiles name instances and clients that way. */
module Quoting {
  import opened Wrappers
  import opened Config
  import Numerals

  // The character behind a backslash, when one is enough.
  function Short(c: char): Option<char> {
    if c == '"' || c == '\\' then Some(c)
    else if c == 'a' then Some('\U{0007}') else if c == 'b' then Some('\U{0008}')
    else if c == 'f' then Some('\U{000C}') else if c == 'n' then Some('\n')
    else if c == 'r' then Some('\r') else if c == 't' then Some('\t') else if c == 'v' then Some('\U{000B}')
    else None
  }

  // Two hexadecimal digits.
  function Code(a: char, b: char): Option<char> {
    match (Numerals.DigitValue(a), Numerals.DigitValue(b))
    case (Some(x), Some(y)) => if x < 8 && y < 16 then Some((16 * x + y) as char) else None
    case _ => None
  }

  function Then(c: char, rest: Option<string>): Option<string> {
    match rest
    case None => None
    case Some(s) => Some([c] + s)
  }

  // The text between the quotes, with its escapes resolved; no bare quote may stand in it.
  function Unquote(s: string): Option<string> {
    if s == "" then Some("")
    else if s[0] == '"' then None
    else if s[0] != '\\' then Then(s[0], Unquote(s[1..]))
    else if |s| >= 2 && Short(s[1]).Some? then Then(Short(s[1]).value, Unquote(s[2..]))
    else if |s| >= 4 && s[1] == 'x' && Code(s[2], s[3]).Some? then Then(Code(s[2], s[3]).value, Unquote(s[4..]))
    else None
  }

  lemma ShortRead(c: char, e: char, rest: string)
    requires QuoteChar(c) == ['\\', e] && Short(e) == Some(c)
    ensures Unquote(QuoteChar(c) + rest) == Then(c, Unquote(rest))
  {
    hide QuoteChar, Short, Then;
    var s := QuoteChar(c) + rest;
    assert s[0] == '\\' && s[1] == e && s[2..] == rest;
  }

  lemma CodeOf(c: char)
    requires c < ' ' || c == '\U{007F}'
    ensures Code(HEX[c as int / 16], HEX[c as int % 16]) == Some(c)
    ensures HEX[c as int / 16] < '8'
  {
  }

  lemma CodeRead(c: char, a: char, b: char, rest: string)
    requires QuoteChar(c) == "\\x" + [a, b] && Code(a, b) == Some(c)
    ensures Unquote(QuoteChar(c) + rest) == Then(c, Unquote(rest))
  {
    var s := QuoteChar(c) + rest;
    assert s[0] == '\\' && s[1] == 'x' && s[2] == a && s[3] == b && s[4..] == rest;
    hide QuoteChar, Code, Then;
    assert Short('x').None?;
  }

  lemma CharRead(c: char, rest: string)
    ensures Unquote(QuoteChar(c) + rest) == Then(c, Unquote(rest))
  {
    if c == '"' {
      ShortRead(c, '"', rest);
    } else if c == '\\' {
      ShortRead(c, '\\', rest);
    } else if c == '\U{0007}' {
      ShortRead(c, 'a', rest);
    } else if c == '\U{0008}' {
      ShortRead(c, 'b', rest);
    } else if c == '\U{000C}' {
      ShortRead(c, 'f', rest);
    } else if c == '\n' {
      ShortRead(c, 'n', rest);
    } else if c == '\r' {
      ShortRead(c, 'r', rest);
    } else if c == '\t' {
      ShortRead(c, 't', rest);
    } else if c == '\U{000B}' {
      ShortRead(c, 'v', rest);
    } else if c < ' ' || c == '\U{007F}' {
      CodeOf(c);
      CodeRead(c, HEX[c as int / 16], HEX[c as int % 16], rest);
    } else {
      assert QuoteChar(c) + rest == [c] + rest;
      assert ([c] + rest)[1..] == rest;
    }
  }

  lemma {:induction false} BodyRead(s: string)
    ensures Unquote(QuoteBody(s)) == Some(s)
  {
    hide QuoteChar, Unquote;
    if s == "" {
      NothingQuoted();
    } else {
      BodyRead(s[1..]);
      CharRead(s[0], QuoteBody(s[1..]));
      assert [s[0]] + s[1..] == s;
    }
  }

  lemma NothingQuoted()
    ensures Unquote("") == Some("")
  {
  }

  /** A quoted text is a quote, a body that reads back as the text, and a quote: it can end nowhere else. */
  lemma QuoteReadsBack(s: string)
    ensures var q := Quote(s);
            |q| >= 2 && q[0] == '"' && q[|q| - 1] == '"' && Unquote(q[1..|q| - 1]) == Some(s)
  {
    hide Unquote;
    BodyRead(s);
    assert Quote(s)[1..|Quote(s)| - 1] == QuoteBody(s);
  }
}
