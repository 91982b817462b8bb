/** Ban lists as occtl prints them, and the proof that reading one gives its rows back. */
module BanPrinting {
  import opened Wrappers
  import opened BanList
  import Numerals
  import Text
  import TrailingCommas

  // The white space occtl may put between tokens.
  datatype Layout = Layout(row: string, field: string, colon: string, close: string, end: string)

  predicate AllWhite(s: string) {
    forall i | 0 <= i < |s| :: s[i] in {' ', '\t', '\n', '\r'}
  }

  predicate Spacing(g: Layout) {
    AllWhite(g.row) && AllWhite(g.field) && AllWhite(g.colon) && AllWhite(g.close) && AllWhite(g.end)
  }

  // ------------------------------------------------ printing

  function Quoted(text: string): string {
    ['"'] + text + ['"']
  }

  function PrintValue(v: Value): string {
    match v
    case Str(text) => Quoted(text)
    case Num(digits) => digits
    case Null => NULL
  }

  function PrintField(f: Field, g: Layout): string {
    Quoted(f.key) + [':'] + g.colon + PrintValue(f.value)
  }

  function PrintMembers(o: Object, g: Layout): string
    requires o != []
  {
    PrintField(o[0], g) + if |o| == 1 then g.close + ['}'] else [','] + g.field + PrintMembers(o[1..], g)
  }

  function PrintObject(o: Object, g: Layout): string
    requires o != []
  {
    ['{'] + g.field + PrintMembers(o, g)
  }

  function Ending(g: Layout, comma: bool): string {
    (if comma then [','] else []) + g.end + [']']
  }

  predicate Filled(os: seq<Object>) {
    forall i | 0 <= i < |os| :: os[i] != []
  }

  function PrintElements(os: seq<Object>, g: Layout, comma: bool): string
    requires os != [] && Filled(os)
  {
    PrintObject(os[0], g)
    + if |os| == 1 then Ending(g, comma) else [','] + g.row + PrintElements(os[1..], g, comma)
  }

  function PrintList(os: seq<Object>, g: Layout, comma: bool): string
    requires Filled(os)
  {
    ['['] + if os == [] then Ending(g, false) else g.row + PrintElements(os, g, comma)
  }

  // ------------------------------------------------ what may be printed

  // No quote, backslash or control character, and no comma that the sanitiser would take for a trailing one.
  predicate CleanText(s: string) {
    && (forall i | 0 <= i < |s| :: s[i] != '"' && s[i] != '\\' && s[i] >= ' ')
    && TrailingCommas.NoTrailing(s)
  }

  predicate Numeral(s: string) {
    s != "" && (forall i | 0 <= i < |s| :: Digit(s[i])) && (|s| > 1 ==> s[0] != '0')
  }

  predicate CleanValue(v: Value) {
    match v
    case Str(text) => CleanText(text)
    case Num(digits) => Numeral(digits)
    case Null => true
  }

  predicate CleanObject(o: Object) {
    o != [] && forall i | 0 <= i < |o| :: CleanText(o[i].key) && CleanValue(o[i].value)
  }

  // ------------------------------------------------ parsing what was printed

  lemma {:induction false} SkipWhite(w: string, rest: string)
    requires AllWhite(w) && (rest == "" || !JsonSpace(rest[0]))
    ensures Skip(w + rest) == rest
  {
    if w == "" {
      assert w + rest == rest;
    } else {
      assert (w + rest)[1..] == w[1..] + rest;
      SkipWhite(w[1..], rest);
    }
  }

  lemma {:induction false} TextParsed(t: string, rest: string)
    requires forall i | 0 <= i < |t| :: PlainChar(t[i])
    ensures ParseText(t + ['"'] + rest) == Some((t, rest))
  {
    var s := t + ['"'] + rest;
    if t == "" {
      assert s[1..] == rest;
    } else {
      assert s[1..] == t[1..] + ['"'] + rest;
      TextParsed(t[1..], rest);
      assert [t[0]] + t[1..] == t;
    }
  }

  lemma StringParsed(t: string, rest: string)
    requires CleanText(t)
    ensures ParseString(Quoted(t) + rest) == Some((t, rest))
  {
    assert (Quoted(t) + rest)[1..] == t + ['"'] + rest;
    TextParsed(t, rest);
  }

  lemma {:induction false} DigitsCounted(d: string, rest: string)
    requires forall i | 0 <= i < |d| :: Digit(d[i])
    requires rest == "" || !Digit(rest[0])
    ensures Digits(d + rest) == |d|
  {
    if d == "" {
      assert d + rest == rest;
    } else {
      assert (d + rest)[1..] == d[1..] + rest;
      DigitsCounted(d[1..], rest);
    }
  }

  lemma ValueParsed(v: Value, rest: string)
    requires CleanValue(v)
    requires rest == "" || !Digit(rest[0])
    ensures ParseValue(PrintValue(v) + rest) == Some((v, rest))
  {
    hide ParseString, Digits, CleanText;
    var s := PrintValue(v) + rest;
    match v
    case Str(text) =>
      StringParsed(text, rest);
      assert s[0] == '"';
    case Num(digits) =>
      DigitsCounted(digits, rest);
      assert Digit(s[0]) && s[0] == digits[0];
      assert s[..|digits|] == digits && s[|digits|..] == rest;
      assert NULL[0] != s[0];
    case Null =>
      assert s[..4] == NULL && s[4..] == rest;
      assert s[0] == 'n';
  }

  lemma FieldParsed(f: Field, g: Layout, rest: string)
    requires CleanText(f.key) && CleanValue(f.value) && Spacing(g)
    requires rest == "" || !Digit(rest[0])
    ensures ParseField(PrintField(f, g) + rest) == Some((f, rest))
  {
    hide ParseString, ParseValue, CleanText, CleanValue, AllWhite, Quoted, Skip;
    var value := PrintValue(f.value) + rest;
    var afterKey := [':'] + (g.colon + value);
    assert PrintField(f, g) + rest == Quoted(f.key) + afterKey;
    StringParsed(f.key, afterKey);
    assert Skip(afterKey) == afterKey by { SkipNone(afterKey); }
    assert afterKey[1..] == g.colon + value;
    ValueStarts(f.value, rest);
    SkipWhite(g.colon, value);
    ValueParsed(f.value, rest);
  }

  lemma SkipNone(s: string)
    requires s == "" || !JsonSpace(s[0])
    ensures Skip(s) == s
  {
  }

  lemma ValueStarts(v: Value, rest: string)
    requires CleanValue(v)
    ensures PrintValue(v) + rest != "" && !JsonSpace((PrintValue(v) + rest)[0])
  {
    if v.Num? {
      assert Digit(v.digits[0]);
    }
  }

  lemma {:induction false} MembersParsed(o: Object, g: Layout, rest: string)
    requires CleanObject(o) && Spacing(g)
    ensures ParseMembers(PrintMembers(o, g) + rest) == Some((o, rest))
    decreases |o|
  {
    hide ParseField, PrintField, CleanText, CleanValue, AllWhite, Skip;
    var s := PrintMembers(o, g) + rest;
    if |o| == 1 {
      var close := ['}'] + rest;
      assert s == PrintField(o[0], g) + (g.close + close);
      NotDigitAfter(g.close, close);
      FieldParsed(o[0], g, g.close + close);
      SkipWhite(g.close, close);
      assert close[1..] == rest && o == [o[0]];
    } else {
      var next := PrintMembers(o[1..], g) + rest;
      var t := [','] + (g.field + next);
      assert s == PrintField(o[0], g) + t;
      FieldParsed(o[0], g, t);
      SkipNone(t);
      assert t[1..] == g.field + next;
      MembersStart(o[1..], g, rest);
      SkipWhite(g.field, next);
      MembersParsed(o[1..], g, rest);
      assert [o[0]] + o[1..] == o;
    }
  }

  lemma NotDigitAfter(w: string, rest: string)
    requires AllWhite(w) && rest != "" && !Digit(rest[0])
    ensures w + rest != "" && !Digit((w + rest)[0])
  {
    if w != "" {
      assert JsonSpace(w[0]);
    }
  }

  lemma MembersStart(o: Object, g: Layout, rest: string)
    requires o != []
    ensures PrintMembers(o, g) + rest != "" && (PrintMembers(o, g) + rest)[0] == '"'
  {
    hide PrintValue;
    assert PrintMembers(o, g)[0] == PrintField(o[0], g)[0] == '"';
  }

  lemma ObjectParsed(o: Object, g: Layout, rest: string)
    requires CleanObject(o) && Spacing(g)
    ensures ParseObject(PrintObject(o, g) + rest) == Some((o, rest))
  {
    NotEmpty(o);
    hide ParseMembers, PrintMembers, CleanObject, AllWhite, Skip;
    var s, next := PrintObject(o, g) + rest, PrintMembers(o, g) + rest;
    assert s[1..] == g.field + next;
    MembersStart(o, g, rest);
    SkipWhite(g.field, next);
    MembersParsed(o, g, rest);
  }

  lemma NotEmpty(o: Object)
    requires CleanObject(o)
    ensures o != []
  {
  }

  predicate CleanObjects(os: seq<Object>)
    ensures CleanObjects(os) ==> Filled(os)
  {
    forall i | 0 <= i < |os| :: CleanObject(os[i])
  }

  lemma CleanTail(os: seq<Object>)
    requires CleanObjects(os) && os != []
    ensures CleanObject(os[0]) && CleanObjects(os[1..])
  {
  }

  lemma {:induction false} ElementsParsed(os: seq<Object>, g: Layout)
    requires os != [] && CleanObjects(os) && Spacing(g)
    ensures ParseElements(PrintElements(os, g, false)) == Some((os, ""))
  {
    hide ParseObject, PrintObject, CleanObject, AllWhite, Skip, CleanObjects;
    CleanTail(os);
    var s := PrintElements(os, g, false);
    if |os| == 1 {
      var close := [']'];
      assert s == PrintObject(os[0], g) + (g.end + close);
      ObjectParsed(os[0], g, g.end + close);
      SkipWhite(g.end, close);
      assert close[1..] == "" && os == [os[0]];
    } else {
      var next := PrintElements(os[1..], g, false);
      var t := [','] + (g.row + next);
      assert s == PrintObject(os[0], g) + t;
      ObjectParsed(os[0], g, t);
      SkipNone(t);
      assert t[1..] == g.row + next;
      ElementsStart(os[1..], g, false);
      SkipWhite(g.row, next);
      ElementsParsed(os[1..], g);
      assert [os[0]] + os[1..] == os;
    }
  }

  lemma ElementsStart(os: seq<Object>, g: Layout, comma: bool)
    requires os != [] && Filled(os)
    ensures PrintElements(os, g, comma) != "" && PrintElements(os, g, comma)[0] == '{'
  {
    hide PrintMembers;
    assert PrintElements(os, g, comma)[0] == PrintObject(os[0], g)[0] == '{';
  }

  /** Any list of clean flat objects survives printing and decoding. */
  lemma ListDecoded(os: seq<Object>, g: Layout)
    requires CleanObjects(os) && Spacing(g)
    ensures Decode(PrintList(os, g, false)) == Some(os)
  {
    hide ParseElements, PrintElements, CleanObject, AllWhite, Skip, CleanObjects;
    var s := PrintList(os, g, false);
    SkipNone(s);
    SkipNone("");
    if os == [] {
      assert s[1..] == g.end + [']'];
      SkipWhite(g.end, [']']);
      assert [']'][1..] == "";
    } else {
      assert s[1..] == g.row + PrintElements(os, g, false);
      ElementsStart(os, g, false);
      SkipWhite(g.row, PrintElements(os, g, false));
      ElementsParsed(os, g);
    }
  }

  // ------------------------------------------------ the sanitiser on printed text

  // The sanitiser leaves p alone in front of r.
  predicate Keeps(p: string, r: string) {
    TrailingCommas.Strip(p + r) == p + TrailingCommas.Strip(r)
  }

  lemma KeepsBoth(p: string, q: string, r: string)
    requires Keeps(p, q + r) && Keeps(q, r)
    ensures Keeps(p + q, r)
  {
    hide TrailingCommas.Strip;
    assert p + q + r == p + (q + r);
    assert p + q + TrailingCommas.Strip(r) == p + (q + TrailingCommas.Strip(r));
  }

  lemma KeepsPlain(p: string, r: string)
    requires ',' !in p
    ensures Keeps(p, r)
  {
    TrailingCommas.StripWithoutCommas(p, r);
  }

  lemma KeepsWhite(w: string, r: string)
    requires AllWhite(w)
    ensures Keeps(w, r)
  {
    KeepsPlain(w, r);
  }

  lemma {:induction false} NotClosing(t: string, r: string)
    requires r != "" && r[0] == '"'
    ensures TrailingCommas.ClosesNext(t + r) == TrailingCommas.ClosesNext(t)
  {
    if t == "" {
      assert t + r == r;
    } else {
      assert (t + r)[1..] == t[1..] + r;
      NotClosing(t[1..], r);
    }
  }

  lemma {:induction false} KeepsText(t: string, r: string)
    requires TrailingCommas.NoTrailing(t) && r != "" && r[0] == '"'
    ensures Keeps(t, r)
  {
    if t == "" {
      assert t + r == r;
    } else {
      var s := t + r;
      assert s[1..] == t[1..] + r && s[0 + 1..] == s[1..];
      assert t[0 + 1..] == t[1..];
      NotClosing(t[1..], r);
      assert TrailingCommas.IsTrailing(s, 0) == TrailingCommas.IsTrailing(t, 0);
      KeepsText(t[1..], r);
      assert t == [t[0]] + t[1..];
    }
  }

  lemma {:induction false} ClosesAfterWhite(w: string, r: string)
    requires AllWhite(w) && r != "" && !TrailingCommas.RegexSpace(r[0])
    ensures TrailingCommas.ClosesNext(w + r) == TrailingCommas.Closer(r[0])
  {
    if w == "" {
      assert w + r == r;
    } else {
      assert (w + r)[1..] == w[1..] + r;
      assert JsonSpace(w[0]);
      ClosesAfterWhite(w[1..], r);
    }
  }

  lemma KeepsSeparator(w: string, r: string)
    requires AllWhite(w) && r != "" && !TrailingCommas.RegexSpace(r[0]) && !TrailingCommas.Closer(r[0])
    ensures Keeps([','] + w, r)
  {
    var s := [','] + w + r;
    assert s[1..] == w + r && s[0 + 1..] == s[1..];
    ClosesAfterWhite(w, r);
    KeepsWhite(w, r);
    assert TrailingCommas.Strip(s) == [','] + TrailingCommas.Strip(w + r);
  }

  lemma {:induction false} DropsTrailing(w: string, r: string)
    requires AllWhite(w) && r != "" && TrailingCommas.Closer(r[0])
    ensures TrailingCommas.Strip([','] + w + r) == w + TrailingCommas.Strip(r)
  {
    var s := [','] + w + r;
    assert s[1..] == w + r && s[0 + 1..] == s[1..];
    ClosesAfterWhite(w, r);
    KeepsWhite(w, r);
  }

  lemma KeepsQuoted(t: string, r: string)
    requires CleanText(t)
    ensures Keeps(Quoted(t), r)
  {
    hide Keeps;
    KeepsPlain(['"'], r);
    KeepsText(t, ['"'] + r);
    KeepsBoth(t, ['"'], r);
    KeepsPlain(['"'], t + ['"'] + r);
    KeepsBoth(['"'], t + ['"'], r);
    assert Quoted(t) == ['"'] + (t + ['"']);
  }

  lemma KeepsValue(v: Value, r: string)
    requires CleanValue(v)
    ensures Keeps(PrintValue(v), r)
  {
    hide Keeps, CleanText, Quoted;
    match v
    case Str(text) => KeepsQuoted(text, r);
    case Num(digits) => KeepsPlain(digits, r);
    case Null => KeepsPlain(NULL, r);
  }

  lemma KeepsField(f: Field, g: Layout, r: string)
    requires CleanText(f.key) && CleanValue(f.value) && Spacing(g)
    ensures Keeps(PrintField(f, g), r)
  {
    hide Keeps, CleanText, CleanValue, Quoted, PrintValue;
    var v := PrintValue(f.value);
    var middle := [':'] + g.colon;
    KeepsValue(f.value, r);
    KeepsPlain(middle, v + r);
    KeepsBoth(middle, v, r);
    KeepsQuoted(f.key, middle + v + r);
    KeepsBoth(Quoted(f.key), middle + v, r);
    assert PrintField(f, g) == Quoted(f.key) + (middle + v);
  }

  lemma {:induction false} KeepsMembers(o: Object, g: Layout, r: string)
    requires CleanObject(o) && Spacing(g)
    ensures Keeps(PrintMembers(o, g), r)
    decreases |o|
  {
    hide Keeps, PrintField, CleanText, CleanValue;
    if |o| == 1 {
      var close := g.close + ['}'];
      KeepsPlain(close, r);
      KeepsField(o[0], g, close + r);
      KeepsBoth(PrintField(o[0], g), close, r);
    } else {
      hide AllWhite;
      var more := PrintMembers(o[1..], g);
      var separator := [','] + g.field;
      KeepsMembers(o[1..], g, r);
      MembersStart(o[1..], g, r);
      KeepsSeparator(g.field, more + r);
      KeepsBoth(separator, more, r);
      KeepsField(o[0], g, separator + more + r);
      KeepsBoth(PrintField(o[0], g), separator + more, r);
    }
  }

  lemma KeepsObject(o: Object, g: Layout, r: string)
    requires CleanObject(o) && Spacing(g)
    ensures o != [] && Keeps(PrintObject(o, g), r)
  {
    hide Keeps, PrintMembers, CleanObject;
    NotEmpty(o);
    var open, members := ['{'] + g.field, PrintMembers(o, g);
    KeepsMembers(o, g, r);
    KeepsPlain(open, members + r);
    KeepsBoth(open, members, r);
  }

  lemma EndingStripped(g: Layout, comma: bool)
    requires Spacing(g)
    ensures TrailingCommas.Strip(Ending(g, comma)) == Ending(g, false)
  {
    hide Keeps;
    assert TrailingCommas.Strip([']']) == [']'] by {
      assert [']'][1..] == "";
    }
    if comma {
      DropsTrailing(g.end, [']']);
      assert Ending(g, true) == [','] + g.end + [']'];
    } else {
      KeepsWhite(g.end, [']']);
      assert Keeps(g.end, [']']) ==> TrailingCommas.Strip(g.end + [']']) == g.end + [']'] by {
        KeepsMeaning(g.end, [']']);
      }
      assert Ending(g, false) == g.end + [']'];
    }
  }

  lemma KeepsMeaning(p: string, r: string)
    requires Keeps(p, r)
    ensures TrailingCommas.Strip(p + r) == p + TrailingCommas.Strip(r)
  {
  }

  lemma {:induction false} ElementsStripped(os: seq<Object>, g: Layout, comma: bool)
    requires os != [] && CleanObjects(os) && Spacing(g)
    ensures TrailingCommas.Strip(PrintElements(os, g, comma)) == PrintElements(os, g, false)
  {
    hide TrailingCommas.Strip, Keeps, PrintObject, CleanObject, CleanObjects, AllWhite, Ending;
    CleanTail(os);
    if |os| == 1 {
      EndingStripped(g, comma);
      KeepsObject(os[0], g, Ending(g, comma));
      KeepsMeaning(PrintObject(os[0], g), Ending(g, comma));
    } else {
      var more := PrintElements(os[1..], g, comma);
      var separator := [','] + g.row;
      ElementsStart(os[1..], g, comma);
      KeepsSeparator(g.row, more);
      KeepsMeaning(separator, more);
      KeepsObject(os[0], g, separator + more);
      KeepsMeaning(PrintObject(os[0], g), separator + more);
      ElementsStripped(os[1..], g, comma);
    }
  }

  /** The sanitiser removes the comma after the last row and changes nothing else. */
  lemma ListStripped(os: seq<Object>, g: Layout, comma: bool)
    requires CleanObjects(os) && Spacing(g)
    ensures TrailingCommas.ReplaceAll(PrintList(os, g, comma)) == PrintList(os, g, false)
  {
    hide TrailingCommas.Strip, Keeps, PrintElements, CleanObjects, AllWhite, Ending;
    TrailingCommas.ReplaceAllIsStrip(PrintList(os, g, comma));
    if os == [] {
      KeepsPlain(['['], Ending(g, false));
      KeepsMeaning(['['], Ending(g, false));
      EndingStripped(g, false);
    } else {
      var elements := PrintElements(os, g, comma);
      KeepsWhite(g.row, elements);
      KeepsPlain(['['], g.row + elements);
      KeepsMeaning(['['], g.row + elements);
      KeepsMeaning(g.row, elements);
      ElementsStripped(os, g, comma);
    }
  }

  // ------------------------------------------------ rows

  datatype Form = Bare | InQuotes | WithUnit(unit: string)

  // times: the Since and _Since texts; the points list prints neither.
  datatype Row = Row(ip: string, times: Option<(string, string)>, score: nat, form: Form)

  function Decimal(n: nat): string {
    Numerals.Show(n, Numerals.Ten)
  }

  function ScoreValue(r: Row): Value {
    match r.form
    case Bare => Num(Decimal(r.score))
    case InQuotes => Str(Decimal(r.score))
    case WithUnit(unit) => Str(Decimal(r.score) + [' '] + unit)
  }

  function Times(r: Row): Object {
    match r.times
    case None => []
    case Some((since, ago)) => [Field("Since", Str(since)), Field("_Since", Str(ago))]
  }

  function RowObject(r: Row): (o: Object)
    ensures o != []
  {
    [Field("IP", Str(r.ip))] + Times(r) + [Field("Score", ScoreValue(r))]
  }

  function RowObjects(rows: seq<Row>): (os: seq<Object>)
    ensures |os| == |rows| && forall i | 0 <= i < |os| :: os[i] == RowObject(rows[i])
  {
    seq(|rows|, i requires 0 <= i < |rows| => RowObject(rows[i]))
  }

  predicate CleanRow(r: Row) {
    && CleanText(r.ip)
    && r.score <= 9007199254740992
    && (r.times.Some? ==> CleanText(r.times.value.0) && CleanText(r.times.value.1))
    && (r.form.WithUnit? ==> CleanText(r.form.unit))
  }

  predicate CleanRows(rows: seq<Row>) {
    forall i | 0 <= i < |rows| :: CleanRow(rows[i])
  }

  // occtl's output for the rows, between any white space.
  function Print(rows: seq<Row>, g: Layout, comma: bool, before: string, after: string): string {
    before + PrintList(RowObjects(rows), g, comma) + after
  }

  function Since(r: Row): string {
    if r.times.Some? then r.times.value.0 else ""
  }

  // The rows worth reporting, in order.
  function Listed(rows: seq<Row>, banned: bool): seq<Ban> {
    if rows == [] then []
    else if Text.Blank(rows[0].ip) then Listed(rows[1..], banned)
    else [Ban(rows[0].ip, rows[0].score, banned, Text.Trim(Since(rows[0])))] + Listed(rows[1..], banned)
  }

  lemma {:induction false} DecimalDigits(n: nat)
    ensures Numeral(Decimal(n))
  {
    var s := Decimal(n);
    forall i | 0 <= i < |s| ensures Digit(s[i]) {
      assert Numerals.IsDigit(s[i], Numerals.Ten);
    }
    NoLeadingZero(n);
  }

  lemma {:induction false} NoLeadingZero(n: nat)
    ensures |Decimal(n)| > 1 ==> Decimal(n)[0] != '0'
    ensures n > 0 ==> Decimal(n)[0] != '0'
  {
    if n >= 10 {
      NoLeadingZero(n / 10);
    }
  }

  lemma {:induction false} CleanConcat(p: string, t: string)
    requires CleanText(t) && ',' !in p && forall i | 0 <= i < |p| :: PlainChar(p[i])
    ensures CleanText(p + t)
  {
    TrailingCommas.StripWithoutCommas(p, t);
    TrailingCommas.StripShorter(t);
    TrailingCommas.StripShorter(p + t);
  }

  lemma CleanPlain(p: string)
    requires ',' !in p && forall i | 0 <= i < |p| :: PlainChar(p[i])
    ensures CleanText(p)
  {
    CleanConcat(p, "");
    assert p + "" == p;
  }

  lemma ScoreClean(r: Row)
    requires CleanRow(r)
    ensures CleanValue(ScoreValue(r))
  {
    hide CleanText, Decimal;
    DecimalDigits(r.score);
    var d := Decimal(r.score);
    match r.form
    case Bare =>
    case InQuotes => CleanPlain(d);
    case WithUnit(unit) => CleanConcat(d + [' '], unit);
  }

  // The field names the decoder looks for are those occtl prints.
  lemma FieldNames()
    ensures IP == "IP" && SINCE == "Since" && UNDER_SINCE == "_Since" && SCORE == "Score"
    ensures EXACT == 9007199254740992
  {
  }

  lemma RowClean(r: Row)
    requires CleanRow(r)
    ensures CleanObject(RowObject(r))
  {
    hide CleanText, ScoreValue;
    FieldNames();
    ScoreClean(r);
    CleanPlain(IP);
    CleanPlain(SINCE);
    CleanPlain(UNDER_SINCE);
    CleanPlain(SCORE);
  }

  lemma RowsClean(rows: seq<Row>)
    requires CleanRows(rows)
    ensures CleanObjects(RowObjects(rows))
  {
    hide CleanObject, CleanRow;
    forall i | 0 <= i < |rows| ensures CleanObject(RowObjects(rows)[i]) {
      RowClean(rows[i]);
    }
  }

  // ------------------------------------------------ scores and fields

  lemma SpaceNotDigit(d: string)
    requires Numeral(d)
    ensures ' ' !in d
  {
  }

  /** Bare, quoted or followed by a unit, the score is the number printed. */
  lemma ScoreRead(r: Row)
    requires r.score <= 9007199254740992
    ensures FlexUint(ScoreValue(r)) == Some(r.score)
  {
    hide Text.Split, Numerals.Read, Numerals.Show, Numeral;
    FieldNames();
    var d := Decimal(r.score);
    DecimalDigits(r.score);
    SpaceNotDigit(d);
    Numerals.ReadOfShow(r.score, Numerals.Ten);
    assert d != "" && d[0] != 'n' by { StartsWithDigit(d); }
    match r.form
    case WithUnit(unit) =>
      var s := d + [' '] + unit;
      assert s[0] == d[0];
      Text.SplitCons(d, unit, ' ');
    case _ =>
      Text.SplitWhole(d, ' ');
  }

  lemma StartsWithDigit(d: string)
    requires Numeral(d)
    ensures d != "" && Digit(d[0])
  {
  }

  lemma {:induction false} SameKeyRefl(a: string)
    ensures SameKey(a, a)
  {
  }

  lemma KeysApart()
    ensures !SameKey(SINCE, IP) && !SameKey(UNDER_SINCE, IP) && !SameKey(SCORE, IP)
    ensures !SameKey(UNDER_SINCE, SINCE) && !SameKey(SCORE, SINCE) && !SameKey(UNDER_SINCE, SCORE)
  {
    assert Lower(SINCE[0]) == 's' && Lower(SCORE[0]) == 's';
    assert Lower(SINCE[1]) == 'i' && Lower(SCORE[1]) == 'c';
  }

  lemma {:induction false} ToRowStep(o: Object, r: RawBan)
    requires o != []
    ensures Assign(r, o[0]).Some? ==> ToRow(o, r) == ToRow(o[1..], Assign(r, o[0]).value)
  {
  }

  lemma RowRead(r: Row)
    requires r.score <= 9007199254740992
    ensures ToRow(RowObject(r), RawBan("", "", 0)) == Some(RawBan(r.ip, Since(r), r.score))
  {
    hide SameKey, FlexUint, ScoreValue, ToRow;
    FieldNames();
    KeysApart();
    SameKeyRefl(IP);
    SameKeyRefl(SINCE);
    SameKeyRefl(SCORE);
    ScoreRead(r);
    var o := RowObject(r);
    var score := [Field(SCORE, ScoreValue(r))];
    ToRowStep(o, RawBan("", "", 0));
    ScoreLast(r);
    if r.times.Some? {
      var a := o[1..];
      assert a == Times(r) + score;
      ToRowStep(a, RawBan(r.ip, "", 0));
      var b := a[1..];
      ToRowStep(b, RawBan(r.ip, Since(r), 0));
      assert b[1..] == score;
    } else {
      assert o[1..] == score;
    }
  }

  lemma ScoreLast(r: Row)
    requires r.score <= 9007199254740992
    ensures ToRow([Field(SCORE, ScoreValue(r))], RawBan(r.ip, Since(r), 0)) == Some(RawBan(r.ip, Since(r), r.score))
  {
    hide SameKey, FlexUint, ScoreValue;
    KeysApart();
    SameKeyRefl(SCORE);
    ScoreRead(r);
    assert [Field(SCORE, ScoreValue(r))][1..] == [];
  }

  function RawRow(r: Row): RawBan {
    RawBan(r.ip, Since(r), r.score)
  }

  function RawRows(rows: seq<Row>): seq<RawBan> {
    seq(|rows|, i requires 0 <= i < |rows| => RawRow(rows[i]))
  }

  lemma {:induction false} RowsRead(rows: seq<Row>)
    requires CleanRows(rows)
    ensures ToRows(RowObjects(rows)) == Some(RawRows(rows))
  {
    hide ToRow, RowObject;
    if rows == [] {
      assert RawRows(rows) == [];
    } else {
      assert CleanRow(rows[0]);
      RowRead(rows[0]);
      assert RowObjects(rows)[1..] == RowObjects(rows[1..]);
      RowsRead(rows[1..]);
      assert RawRows(rows) == [RawRow(rows[0])] + RawRows(rows[1..]);
    }
  }

  lemma {:induction false} RowsListed(rows: seq<Row>, banned: bool)
    ensures ToBans(RawRows(rows), banned) == Listed(rows, banned)
  {
    hide Text.Blank, Text.Trim;
    if rows != [] {
      assert RawRows(rows)[1..] == RawRows(rows[1..]);
      RowsListed(rows[1..], banned);
    }
  }

  // ------------------------------------------------ the round trip

  lemma {:induction false} TrimLeftOf(pre: string, t: string)
    requires Text.AllSpace(pre) && t != "" && !Text.IsSpace(t[0])
    ensures Text.TrimLeft(pre + t) == t
  {
    hide Text.IsSpace;
    if pre == "" {
      assert pre + t == t;
    } else {
      assert (pre + t)[1..] == pre[1..] + t;
      TrimLeftOf(pre[1..], t);
    }
  }

  lemma {:induction false} TrimRightOf(t: string, post: string)
    requires Text.AllSpace(post) && t != "" && !Text.IsSpace(t[|t| - 1])
    ensures Text.TrimRight(t + post) == t
  {
    hide Text.IsSpace;
    var s := t + post;
    if post == "" {
      assert s == t;
    } else {
      assert s[..|s| - 1] == t + post[..|post| - 1];
      TrimRightOf(t, post[..|post| - 1]);
    }
  }

  lemma PrintedTrimmed(os: seq<Object>, g: Layout, comma: bool, before: string, after: string)
    requires Filled(os)
    requires Text.AllSpace(before) && Text.AllSpace(after)
    ensures Text.Trim(before + PrintList(os, g, comma) + after) == PrintList(os, g, comma)
  {
    hide Text.AllSpace, Text.TrimLeft, Text.TrimRight, PrintElements;
    var t := PrintList(os, g, comma);
    PrintedEnds(os, g, comma);
    assert before + t + after == before + (t + after);
    TrimLeftOf(before, t + after);
    TrimRightOf(t, after);
  }

  lemma PrintedEnds(os: seq<Object>, g: Layout, comma: bool)
    requires Filled(os)
    ensures var t := PrintList(os, g, comma); t != "" && t[0] == '[' && t[|t| - 1] == ']'
  {
    hide PrintElements;
    if os != [] {
      ElementsEnd(os, g, comma);
    }
  }

  lemma {:induction false} ElementsEnd(os: seq<Object>, g: Layout, comma: bool)
    requires os != [] && Filled(os)
    ensures var t := PrintElements(os, g, comma); t != "" && t[|t| - 1] == ']'
  {
    hide PrintObject;
    if |os| > 1 {
      ElementsEnd(os[1..], g, comma);
    }
  }

  /**
   * A ban list printed in occtl's style reads back as exactly its rows with an
   * address, in order, whatever white space it is printed with, with or
   * without a comma after the last row, whichever way the scores are written.
   */
  lemma BanListRoundTrip(rows: seq<Row>, g: Layout, comma: bool, before: string, after: string, banned: bool)
    requires CleanRows(rows) && Spacing(g)
    requires Text.AllSpace(before) && Text.AllSpace(after)
    ensures Bans(Print(rows, g, comma, before, after), banned) == Some(Listed(rows, banned))
  {
    hide CleanRow, Text.AllSpace, Text.Trim, TrailingCommas.ReplaceAll, CleanRows, CleanObjects;
    hide Decode, ToRows, PrintList, Spacing, ToBans, Listed, RowObjects, RawRows;
    var os := RowObjects(rows);
    RowsClean(rows);
    PrintedTrimmed(os, g, comma, before, after);
    PrintedEnds(os, g, comma);
    ListStripped(os, g, comma);
    ListDecoded(os, g);
    RowsRead(rows);
    RowsListed(rows, banned);
    if rows == [] {
      NoRows(banned);
    } else {
      BraceIn(os, g);
    }
  }

  lemma NoRows(banned: bool)
    ensures Listed([], banned) == []
  {
  }

  lemma BraceIn(os: seq<Object>, g: Layout)
    requires os != [] && Filled(os)
    ensures '{' in PrintList(os, g, false)
  {
    ElementsStart(os, g, false);
    hide PrintElements;
    var t := PrintList(os, g, false);
    assert t[1 + |g.row|] == '{';
  }
}
