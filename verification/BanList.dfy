/** Decoding the ban lists of occtl: a flat subset of JSON (RFC 8259), rows with flexible scores. */
module BanList {
  import opened Wrappers
  import Numerals
  import Text
  import TrailingCommas

  // ------------------------------------------------ JSON: arrays of flat objects

  // Numbers keep their spelling; strings are those without escapes.
  datatype Value = Str(text: string) | Num(digits: string) | Null

  datatype Field = Field(key: string, value: Value)

  type Object = seq<Field>

  // Section 2 of RFC 8259.
  predicate JsonSpace(c: char) {
    c in {' ', '\t', '\n', '\r'}
  }

  function Skip(s: string): (r: string)
    ensures |r| <= |s|
    ensures r == "" || !JsonSpace(r[0])
  {
    if s != "" && JsonSpace(s[0]) then Skip(s[1..]) else s
  }

  // A character that stands for itself inside quotes (section 7 of RFC 8259).
  predicate PlainChar(c: char) {
    c != '"' && c != '\\' && c >= ' '
  }

  // The rest of a string whose opening quote has been read.
  function ParseText(s: string): (r: Option<(string, string)>)
    ensures r.Some? ==> |r.value.1| < |s|
  {
    if s == "" then None
    else if s[0] == '"' then Some(("", s[1..]))
    else if !PlainChar(s[0]) then None
    else
      match ParseText(s[1..])
      case None => None
      case Some((text, rest)) => Some(([s[0]] + text, rest))
  }

  function ParseString(s: string): (r: Option<(string, string)>)
    ensures r.Some? ==> |r.value.1| < |s|
  {
    if s != "" && s[0] == '"' then ParseText(s[1..]) else None
  }

  predicate Digit(c: char) {
    '0' <= c <= '9'
  }

  function Digits(s: string): (n: nat)
    ensures n <= |s| && forall i | 0 <= i < n :: Digit(s[i])
    ensures n < |s| ==> !Digit(s[n])
  {
    if s != "" && Digit(s[0]) then 1 + Digits(s[1..]) else 0
  }

  // Section 6 of RFC 8259 without sign, fraction and exponent.
  function ParseNumber(s: string): (r: Option<(string, string)>)
    ensures r.Some? ==> |r.value.1| < |s|
  {
    var n := Digits(s);
    if n == 0 || (n > 1 && s[0] == '0') then None else Some((s[..n], s[n..]))
  }

  const NULL := ['n', 'u', 'l', 'l']

  function ParseValue(s: string): (r: Option<(Value, string)>)
    ensures r.Some? ==> |r.value.1| < |s|
  {
    if s != "" && s[0] == '"' then
      match ParseString(s)
      case None => None
      case Some((text, rest)) => Some((Str(text), rest))
    else if NULL <= s then Some((Null, s[4..]))
    else
      match ParseNumber(s)
      case None => None
      case Some((digits, rest)) => Some((Num(digits), rest))
  }

  function ParseField(s: string): (r: Option<(Field, string)>)
    ensures r.Some? ==> |r.value.1| < |s|
  {
    match ParseString(s)
    case None => None
    case Some((key, afterKey)) =>
      var colon := Skip(afterKey);
      if colon == "" || colon[0] != ':' then None
      else
        match ParseValue(Skip(colon[1..]))
        case None => None
        case Some((value, rest)) => Some((Field(key, value), rest))
  }

  // Fields up to and including the closing brace; the first one is due.
  function ParseMembers(s: string): (r: Option<(Object, string)>)
    ensures r.Some? ==> |r.value.1| < |s|
    decreases |s|
  {
    match ParseField(s)
    case None => None
    case Some((field, rest)) =>
      var t := Skip(rest);
      if t != "" && t[0] == '}' then Some(([field], t[1..]))
      else if t != "" && t[0] == ',' then
        match ParseMembers(Skip(t[1..]))
        case None => None
        case Some((more, after)) => Some(([field] + more, after))
      else None
  }

  // An element of the array; null stands for an object without fields.
  function ParseObject(s: string): (r: Option<(Object, string)>)
    ensures r.Some? ==> |r.value.1| < |s|
  {
    if NULL <= s then Some(([], s[4..]))
    else if s == "" || s[0] != '{' then None
    else
      var t := Skip(s[1..]);
      if t != "" && t[0] == '}' then Some(([], t[1..])) else ParseMembers(t)
  }

  function ParseElements(s: string): (r: Option<(seq<Object>, string)>)
    ensures r.Some? ==> |r.value.1| < |s|
    decreases |s|
  {
    match ParseObject(s)
    case None => None
    case Some((obj, rest)) =>
      var t := Skip(rest);
      if t != "" && t[0] == ']' then Some(([obj], t[1..]))
      else if t != "" && t[0] == ',' then
        match ParseElements(Skip(t[1..]))
        case None => None
        case Some((more, after)) => Some(([obj] + more, after))
      else None
  }

  // json.Unmarshal into a slice: one array or null, then nothing but white space.
  function Decode(s: string): Option<seq<Object>> {
    var t := Skip(s);
    if NULL <= t then (if Skip(t[4..]) == "" then Some([]) else None)
    else if t == "" || t[0] != '[' then None
    else
      var u := Skip(t[1..]);
      if u != "" && u[0] == ']' then (if Skip(u[1..]) == "" then Some([]) else None)
      else
        match ParseElements(u)
        case None => None
        case Some((objects, rest)) => if Skip(rest) == "" then Some(objects) else None
  }

  // ------------------------------------------------ rows

  datatype RawBan = RawBan(ip: string, since: string, score: nat)

  datatype Ban = Ban(ip: string, score: nat, banned: bool, since: string)

  const EXACT: nat := 0x20_0000_0000_0000 // 2^53

  // flexUint.UnmarshalJSON on whole numbers up to 2^53, which a float64 holds exactly.
  function FlexUint(v: Value): Option<nat> {
    var s := match v case Str(text) => text case Num(digits) => digits case Null => "";
    if s == "" || s == NULL then Some(0)
    else
      var f := Text.Split(s, ' ');
      match Numerals.Read(if f[0] != "" then f[0] else s, Numerals.Ten)
      case Some(n) => if n <= EXACT then Some(n) else None
      case None => None
  }

  function Lower(c: char): char {
    if 'A' <= c <= 'Z' then 'a' + (c - 'A') else c
  }

  // encoding/json matches field names without regard to ASCII case.
  predicate SameKey(a: string, b: string) {
    |a| == |b| && forall i | 0 <= i < |a| :: Lower(a[i]) == Lower(b[i])
  }

  const IP := ['I', 'P']
  const SINCE := ['S', 'i', 'n', 'c', 'e']
  const UNDER_SINCE := ['_', 'S', 'i', 'n', 'c', 'e']
  const SCORE := ['S', 'c', 'o', 'r', 'e']

  // Storing one field into the struct; unknown fields are skipped.
  function Assign(r: RawBan, f: Field): Option<RawBan> {
    if SameKey(f.key, IP) then
      match f.value
      case Str(text) => Some(r.(ip := text))
      case Null => Some(r)
      case Num(_) => None
    else if SameKey(f.key, SINCE) then
      match f.value
      case Str(text) => Some(r.(since := text))
      case Null => Some(r)
      case Num(_) => None
    else if SameKey(f.key, SCORE) then
      match FlexUint(f.value)
      case None => None
      case Some(n) => Some(r.(score := n))
    else Some(r)
  }

  function ToRow(obj: Object, r: RawBan): Option<RawBan> {
    if obj == [] then Some(r)
    else
      match Assign(r, obj[0])
      case None => None
      case Some(next) => ToRow(obj[1..], next)
  }

  function ToRows(objects: seq<Object>): (rows: Option<seq<RawBan>>)
    ensures rows.Some? ==> |rows.value| == |objects|
  {
    if objects == [] then Some([])
    else
      match (ToRow(objects[0], RawBan("", "", 0)), ToRows(objects[1..]))
      case (Some(r), Some(rest)) => Some([r] + rest)
      case _ => None
  }

  function ToBans(rows: seq<RawBan>, banned: bool): seq<Ban> {
    if rows == [] then []
    else (if Text.Blank(rows[0].ip) then []
          else [Ban(rows[0].ip, rows[0].score, banned, Text.Trim(rows[0].since))])
         + ToBans(rows[1..], banned)
  }

  // parseBans as a function; None for its error.
  function Bans(out: string, banned: bool): Option<seq<Ban>> {
    var s := Text.Trim(out);
    if s == "" then Some([])
    else
      var json := TrailingCommas.ReplaceAll(s);
      if json == "[]" then Some([])
      else
        match Decode(json)
        case None => None
        case Some(objects) =>
          match ToRows(objects)
          case None => None
          case Some(rows) => Some(ToBans(rows, banned))
  }

  lemma {:induction false} ToBansSnoc(rows: seq<RawBan>, r: RawBan, banned: bool)
    ensures ToBans(rows + [r], banned) == ToBans(rows, banned) + ToBans([r], banned)
  {
    hide Text.Blank, Text.Trim, ToBans;
    if rows == [] {
      assert rows + [r] == [r];
      NoBans(banned);
    } else {
      var first := ToBans([rows[0]], banned);
      var rest, last := ToBans(rows[1..], banned), ToBans([r], banned);
      ToBansCons(rows, banned);
      ToBansCons(rows + [r], banned);
      assert (rows + [r])[1..] == rows[1..] + [r];
      ToBansSnoc(rows[1..], r, banned);
      hide *;
      assert first + (rest + last) == first + rest + last;
    }
  }

  lemma ToBansCons(rows: seq<RawBan>, banned: bool)
    requires rows != []
    ensures ToBans(rows, banned) == ToBans([rows[0]], banned) + ToBans(rows[1..], banned)
  {
    hide Text.Blank, Text.Trim;
    assert [rows[0]][1..] == [];
    assert ToBans([], banned) == [];
  }

  /** parseBans with its loop over the decoded rows. */
  method ParseBans(out: string, banned: bool) returns (bans: Option<seq<Ban>>)
    ensures bans == Bans(out, banned)
  {
    hide TrailingCommas.ReplaceAll, Decode, ToRows, Text.Blank, Text.Trim, ToBans;
    NoBans(banned);
    var s := Text.Trim(out);
    if s == "" {
      return Some([]);
    }
    s := TrailingCommas.ReplaceAll(s);
    if s == "[]" {
      return Some([]);
    }
    var objects := Decode(s);
    if objects.None? {
      return None;
    }
    var raw := ToRows(objects.value);
    if raw.None? {
      return None;
    }
    var kept: seq<Ban> := [];
    for i := 0 to |raw.value|
      invariant kept == ToBans(raw.value[..i], banned)
    {
      var r := raw.value[i];
      assert raw.value[..i + 1] == raw.value[..i] + [r];
      ToBansSnoc(raw.value[..i], r, banned);
      OneBan(r, banned);
      if !Text.Blank(r.ip) {
        kept := kept + [Ban(r.ip, r.score, banned, Text.Trim(r.since))];
      }
    }
    assert raw.value[..|raw.value|] == raw.value;
    bans := Some(kept);
  }

  lemma NoBans(banned: bool)
    ensures ToBans([], banned) == []
  {
  }

  lemma OneBan(r: RawBan, banned: bool)
    ensures ToBans([r], banned)
         == if Text.Blank(r.ip) then [] else [Ban(r.ip, r.score, banned, Text.Trim(r.since))]
  {
    hide Text.Blank, Text.Trim;
    assert [r][1..] == [];
  }

  // ------------------------------------------------ what the decoder tolerates

  // A letter in either case.
  predicate Either(c: char, upper: char) {
    'A' <= upper <= 'Z' && (c == upper || c as int == upper as int + 32)
  }

  lemma LowerOfEither(c: char, upper: char)
    requires Either(c, upper)
    ensures Lower(c) == Lower(upper)
  {
  }

  /** Addresses and scores are found under their names in any mixture of cases. */
  lemma AnyCase(r: RawBan, ip: string, score: string, text: string)
    requires |ip| == 2 && Either(ip[0], 'I') && Either(ip[1], 'P')
    requires |score| == 5 && Either(score[0], 'S') && Either(score[1], 'C') && Either(score[2], 'O')
    requires Either(score[3], 'R') && Either(score[4], 'E')
    ensures Assign(r, Field(ip, Str(text))) == Some(r.(ip := text))
    ensures Assign(r, Field(ip, Null)) == Some(r) && Assign(r, Field(ip, Num(text))) == None
    ensures Assign(r, Field(score, Null)) == Some(r.(score := 0))
    ensures Assign(r, Field(score, Str(""))) == Some(r.(score := 0))
  {
    hide Lower;
    LowerOfEither(ip[0], 'I');
    LowerOfEither(ip[1], 'P');
    LowerOfEither(score[0], 'S');
    LowerOfEither(score[1], 'C');
    LowerOfEither(score[2], 'O');
    LowerOfEither(score[3], 'R');
    LowerOfEither(score[4], 'E');
    LowerOfName();
    assert SameKey(ip, IP) && SameKey(score, SCORE);
    assert !SameKey(score, SINCE) && !SameKey(score, IP);
  }

  lemma LowerOfName()
    ensures Lower('I') == 'i' && Lower('P') == 'p' && Lower('S') == 's' && Lower('C') == 'c' && Lower('O') == 'o'
    ensures Lower('R') == 'r' && Lower('E') == 'e'
    ensures Lower('i') == 'i' && Lower('c') == 'c' && Lower('o') == 'o' && Lower('r') == 'r' && Lower('e') == 'e'
  {
  }

  /** A number with a leading zero is no JSON, and neither is a string that is not closed or holds a line break. */
  lemma Malformed(digits: string, text: string, rest: string)
    requires digits != "" && (forall i | 0 <= i < |digits| :: '0' <= digits[i] <= '9')
    requires forall i | 0 <= i < |text| :: text[i] != '"' && text[i] != '\\' && text[i] >= ' '
    ensures ParseNumber("0" + digits + rest) == None
    ensures ParseText(text) == None && ParseText(text + "\n" + rest) == None
  {
    var s := "0" + digits + rest;
    assert Digit(s[0]) && Digit(s[1]);
    assert s[1..][0] == s[1];
    Unclosed(text, rest);
  }

  lemma {:induction false} Unclosed(text: string, rest: string)
    requires forall i | 0 <= i < |text| :: text[i] != '"' && text[i] != '\\' && text[i] >= ' '
    ensures ParseText(text) == None && ParseText(text + "\n" + rest) == None
  {
    if text != "" {
      assert (text + "\n" + rest)[1..] == text[1..] + "\n" + rest;
      Unclosed(text[1..], rest);
    }
  }
}
