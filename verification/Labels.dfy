/** Prometheus label blocks: escaping, printing, and a reader that recovers them. */
module Labels {
  import opened Wrappers
  import Text

  const BACKSLASH := '\\'
  const QUOTE := '"'

  function EscapeChar(c: char): string {
    if c == BACKSLASH then [BACKSLASH, BACKSLASH]
    else if c == QUOTE then [BACKSLASH, QUOTE]
    else if c == Text.NL then [BACKSLASH, 'n']
    else [c]
  }

  function EscapeLabel(s: string): string {
    if s == "" then "" else EscapeChar(s[0]) + EscapeLabel(s[1..])
  }

  function Pair(key: string, value: string): string {
    key + ['=', QUOTE] + EscapeLabel(value) + [QUOTE]
  }

  // Pairs joined by commas; an odd argument at the end is dropped.
  function Body(kv: seq<string>): string {
    if |kv| < 2 then ""
    else Pair(kv[0], kv[1]) + (if |kv| < 4 then "" else [','] + Body(kv[2..]))
  }

  function Block(kv: seq<string>): string {
    if kv == [] then "" else ['{'] + Body(kv) + ['}']
  }

  // The key/value list a block stands for.
  function Pairs(kv: seq<string>): seq<(string, string)> {
    if |kv| < 2 then [] else [(kv[0], kv[1])] + Pairs(kv[2..])
  }

  // ------------------------------------------------ the loop

  lemma {:induction false} BodySnoc(kv: seq<string>, key: string, value: string)
    requires |kv| % 2 == 0
    ensures Body(kv + [key, value]) == Body(kv) + (if kv == [] then "" else [',']) + Pair(key, value)
  {
    hide Pair;
    var all := kv + [key, value];
    if |kv| >= 2 {
      BodySnoc(kv[2..], key, value);
      assert all[2..] == kv[2..] + [key, value];
    }
  }

  lemma {:induction false} BodyOdd(kv: seq<string>, last: string)
    requires |kv| % 2 == 0
    ensures Body(kv + [last]) == Body(kv)
  {
    hide Pair;
    if |kv| >= 2 {
      BodyOdd(kv[2..], last);
      assert (kv + [last])[2..] == kv[2..] + [last];
    }
  }

  /** labels with its builder. */
  method BuildLabels(kv: seq<string>) returns (block: string)
    ensures block == Block(kv)
  {
    hide Pair, Body;
    if |kv| == 0 {
      return "";
    }
    block := ['{'];
    var i := 0;
    assert block == ['{'] + Body(kv[..0]) by { NoBody(kv[..0]); }
    while i + 1 < |kv|
      invariant 0 <= i <= |kv| && i % 2 == 0
      invariant block == ['{'] + Body(kv[..i])
    {
      BodySnoc(kv[..i], kv[i], kv[i + 1]);
      assert kv[..i + 2] == kv[..i] + [kv[i], kv[i + 1]];
      if i > 0 {
        block := block + [','];
      }
      block := block + Pair(kv[i], kv[i + 1]);
      i := i + 2;
    }
    block := block + ['}'];
    if i == |kv| {
      assert kv[..i] == kv;
    } else {
      BodyOdd(kv[..i], kv[i]);
      assert kv[..i] + [kv[i]] == kv;
    }
  }

  lemma NoBody(kv: seq<string>)
    requires kv == []
    ensures Body(kv) == ""
  {
  }

  // ------------------------------------------------ reading back

  function Unescape(c: char): Option<char> {
    if c == '\\' || c == '"' then Some(c)
    else if c == 'n' then Some('\n')
    else None
  }

  // Up to the first quote that no backslash escapes: the value and the rest.
  function ReadQuoted(s: string): (r: Option<(string, string)>)
    ensures r.Some? ==> |r.value.1| < |s|
  {
    if s == "" then None
    else if s[0] == '"' then Some(("", s[1..]))
    else if s[0] == '\\' then
      if |s| < 2 || Unescape(s[1]).None? then None
      else
        match ReadQuoted(s[2..])
        case None => None
        case Some((value, rest)) => Some(([Unescape(s[1]).value] + value, rest))
    else
      match ReadQuoted(s[1..])
      case None => None
      case Some((value, rest)) => Some(([s[0]] + value, rest))
  }

  // Up to the first '=', which is dropped.
  function ReadKey(s: string): (r: Option<(string, string)>)
    ensures r.Some? ==> |r.value.1| < |s|
  {
    if s == "" then None
    else if s[0] == '=' then Some(("", s[1..]))
    else
      match ReadKey(s[1..])
      case None => None
      case Some((key, rest)) => Some(([s[0]] + key, rest))
  }

  function ReadPair(s: string): (r: Option<((string, string), string)>)
    ensures r.Some? ==> |r.value.1| < |s|
  {
    match ReadKey(s)
    case None => None
    case Some((key, t)) =>
      if t == "" || t[0] != '"' then None
      else
        match ReadQuoted(t[1..])
        case None => None
        case Some((value, rest)) => Some(((key, value), rest))
  }

  // Pairs up to the closing brace; the first one is due.
  function ReadPairs(s: string): (r: Option<(seq<(string, string)>, string)>)
    decreases |s|
  {
    match ReadPair(s)
    case None => None
    case Some((pair, rest)) =>
      if rest != "" && rest[0] == '}' then Some(([pair], rest[1..]))
      else if rest != "" && rest[0] == ',' then
        match ReadPairs(rest[1..])
        case None => None
        case Some((more, after)) => Some(([pair] + more, after))
      else None
  }

  // A text without a block at its start has no labels.
  function ReadBlock(s: string): Option<(seq<(string, string)>, string)> {
    if s == "" || s[0] != '{' then Some(([], s))
    else if |s| > 1 && s[1] == '}' then Some(([], s[2..]))
    else ReadPairs(s[1..])
  }

  // Label names, which the program fixes, hold neither of these characters.
  predicate Key(k: string) {
    '=' !in k && '}' !in k
  }

  predicate Keys(kv: seq<string>) {
    forall i | 0 <= i < |kv| && i % 2 == 0 :: Key(kv[i])
  }

  // An escaped character reads as itself, and the rest follows.
  lemma EscapedRead(c: char, t: string, value: string, rest: string)
    requires ReadQuoted(t) == Some((value, rest))
    ensures ReadQuoted(EscapeChar(c) + t) == Some(([c] + value, rest))
  {
    var s := EscapeChar(c) + t;
    assert s[|EscapeChar(c)|..] == t;
  }

  lemma {:induction false} QuotedRead(v: string, rest: string)
    ensures ReadQuoted(EscapeLabel(v) + [QUOTE] + rest) == Some((v, rest))
  {
    if v == "" {
      var s := EscapeLabel(v) + [QUOTE] + rest;
      assert s[0] == QUOTE && s[1..] == rest;
    } else {
      hide ReadQuoted, EscapeChar;
      QuotedRead(v[1..], rest);
      var t := EscapeLabel(v[1..]) + [QUOTE] + rest;
      EscapedRead(v[0], t, v[1..], rest);
      assert EscapeLabel(v) + [QUOTE] + rest == EscapeChar(v[0]) + t;
      assert [v[0]] + v[1..] == v;
    }
  }

  lemma {:induction false} KeyRead(k: string, rest: string)
    requires '=' !in k
    ensures ReadKey(k + ['='] + rest) == Some((k, rest))
  {
    var s := k + ['='] + rest;
    if k == "" {
      assert s[1..] == rest;
    } else {
      assert forall c | c in k[1..] :: c in k;
      assert k[0] in k;
      KeyRead(k[1..], rest);
      assert s[1..] == k[1..] + ['='] + rest;
      assert [k[0]] + k[1..] == k;
    }
  }

  lemma PairRead(k: string, v: string, rest: string)
    requires Key(k)
    ensures ReadPair(Pair(k, v) + rest) == Some(((k, v), rest))
  {
    hide ReadKey, ReadQuoted, EscapeLabel;
    var value := EscapeLabel(v) + [QUOTE] + rest;
    assert Pair(k, v) + rest == k + ['='] + ([QUOTE] + value);
    KeyRead(k, [QUOTE] + value);
    assert ([QUOTE] + value)[1..] == value;
    QuotedRead(v, rest);
  }

  lemma {:induction false} PairsRead(kv: seq<string>, rest: string)
    requires Keys(kv) && |kv| >= 2
    ensures ReadPairs(Body(kv) + ['}'] + rest) == Some((Pairs(kv), rest))
    decreases |kv|
  {
    hide ReadPair, Pair, Key;
    var s := Body(kv) + ['}'] + rest;
    if |kv| < 4 {
      assert s == Pair(kv[0], kv[1]) + (['}'] + rest);
      PairRead(kv[0], kv[1], ['}'] + rest);
      var close := ['}'] + rest;
      assert close[0] == '}' && close[1..] == rest;
      assert Pairs(kv) == [(kv[0], kv[1])];
    } else {
      assert Keys(kv[2..]) by {
        assert forall i | 0 <= i < |kv| - 2 && i % 2 == 0 :: kv[2..][i] == kv[i + 2] && (i + 2) % 2 == 0;
      }
      var next := Body(kv[2..]) + ['}'] + rest;
      assert s == Pair(kv[0], kv[1]) + ([','] + next);
      PairRead(kv[0], kv[1], [','] + next);
      assert ([','] + next)[1..] == next;
      PairsRead(kv[2..], rest);
    }
  }

  lemma BodyStart(kv: seq<string>, rest: string)
    requires |kv| >= 2 && Key(kv[0])
    ensures Body(kv) + rest != "" && (Body(kv) + rest)[0] != '}'
  {
    hide EscapeLabel;
    var k := kv[0];
    assert Body(kv)[0] == Pair(k, kv[1])[0];
    if k != "" {
      assert k[0] in k;
    }
  }

  lemma FewPairs(kv: seq<string>)
    ensures |kv| < 2 ==> Body(kv) == "" && Pairs(kv) == []
  {
  }

  /** Whatever the label values hold, the block reads back as its key/value list, up to where it ends. */
  lemma LabelsReadBack(kv: seq<string>, rest: string)
    requires Keys(kv)
    requires kv == [] ==> rest == "" || rest[0] != '{'
    ensures ReadBlock(Block(kv) + rest) == Some((Pairs(kv), rest))
  {
    hide ReadPairs, Key, Body, Pairs;
    var s := Block(kv) + rest;
    FewPairs(kv);
    if kv == [] {
      assert s == rest;
    } else if |kv| == 1 {
      assert s[2..] == rest;
    } else {
      assert s[1..] == Body(kv) + (['}'] + rest);
      assert s[1..] == Body(kv) + ['}'] + rest;
      BodyStart(kv, ['}'] + rest);
      PairsRead(kv, rest);
    }
  }

  /** Equal blocks come from equal key/value lists. */
  lemma LabelsInjective(a: seq<string>, b: seq<string>)
    requires Keys(a) && Keys(b) && Block(a) == Block(b)
    ensures Pairs(a) == Pairs(b)
  {
    hide ReadBlock, Block;
    LabelsReadBack(a, "");
    LabelsReadBack(b, "");
    assert Block(a) + "" == Block(b) + "";
  }

  // ------------------------------------------------ one line

  lemma {:induction false} EscapedOneLine(s: string)
    ensures Text.NL !in EscapeLabel(s)
  {
    if s != "" {
      EscapedOneLine(s[1..]);
    }
  }

  predicate OneLineKeys(kv: seq<string>) {
    forall i | 0 <= i < |kv| && i % 2 == 0 :: Text.NL !in kv[i]
  }

  /** A label block never breaks its line, even when values hold newlines. */
  lemma {:induction false} BodyOneLine(kv: seq<string>)
    requires OneLineKeys(kv)
    ensures Text.NL !in Body(kv)
  {
    if |kv| >= 2 {
      EscapedOneLine(kv[1]);
      hide EscapeLabel;
      assert Text.NL !in Pair(kv[0], kv[1]);
      assert OneLineKeys(kv[2..]) by {
        assert forall i | 0 <= i < |kv| - 2 && i % 2 == 0 :: kv[2..][i] == kv[i + 2] && (i + 2) % 2 == 0;
      }
      BodyOneLine(kv[2..]);
      hide Pair;
    }
  }

  lemma BlockOneLine(kv: seq<string>)
    requires OneLineKeys(kv)
    ensures Text.NL !in Block(kv)
  {
    BodyOneLine(kv);
  }
}
