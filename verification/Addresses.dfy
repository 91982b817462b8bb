/** Reading a static address as `net.ParseIP` and `To4` do: dotted IPv4, or an IPv6 literal that maps one. */
module Addresses {
  import opened Wrappers
  import opened Ipv4
  import Numerals
  import Text

  // One 16-bit field of an IPv6 address.
  type Group = n: nat | n < 0x1_0000

  predicate HexDigit(c: char) {
    Numerals.IsDigit(c, Numerals.Sixteen)
  }

  // The number of hexadecimal digits in front.
  function HexRun(s: string): (n: nat)
    ensures n <= |s| && forall i | 0 <= i < n :: HexDigit(s[i])
    ensures n < |s| ==> !HexDigit(s[n])
  {
    if s != "" && HexDigit(s[0]) then 1 + HexRun(s[1..]) else 0
  }

  function HexValue(s: string): (n: nat)
    requires |s| <= 4 && Numerals.AllDigits(s, Numerals.Sixteen)
    ensures n < 0x1_0000
  {
    ValueBound(s);
    Numerals.Value(s, Numerals.Sixteen)
  }

  lemma ValueBound(s: string)
    requires |s| <= 4 && Numerals.AllDigits(s, Numerals.Sixteen)
    ensures Numerals.Value(s, Numerals.Sixteen) < 0x1_0000
  {
    if s != "" {
      var front := s[..|s| - 1];
      assert Numerals.IsDigit(s[|s| - 1], Numerals.Sixteen);
      ValueBelow(front);
      if |s| == 4 {
        ValueBelow(front[..2]);
        assert front == front[..2] + [front[2]];
        assert front[..|front| - 1] == front[..2];
        assert Numerals.IsDigit(front[2], Numerals.Sixteen);
      }
    }
  }

  lemma {:induction false} ValueBelow(s: string)
    requires |s| <= 3 && Numerals.AllDigits(s, Numerals.Sixteen)
    ensures Numerals.Value(s, Numerals.Sixteen) < (if |s| == 0 then 1 else if |s| == 1 then 16
        else if |s| == 2 then 256 else 4096)
  {
    if s != "" {
      assert Numerals.IsDigit(s[|s| - 1], Numerals.Sixteen);
      ValueBelow(s[..|s| - 1]);
    }
  }

  // The fields read so far, and where "::" stood among them.
  datatype Fields = Fields(groups: seq<Group>, gap: Option<nat>)

  predicate GapInside(f: Fields) {
    |f.groups| <= 8 && (f.gap.Some? ==> f.gap.value <= |f.groups|)
  }

  // The dotted tail of an address fills two fields.
  function TailGroups(q: Quad): seq<Group> {
    [q.a * 256 + q.b, q.c * 256 + q.d]
  }

  // The field loop of netip's IPv6 parser; the whole text must be used up.
  function ReadFields(s: string, f: Fields): (r: Option<Fields>)
    requires GapInside(f)
    ensures r.Some? ==> GapInside(r.value)
    decreases |s|
  {
    var n := HexRun(s);
    if |f.groups| == 8 || n == 0 || n > 4 then None
    else if n < |s| && s[n] == '.' then
      if (f.gap.None? && |f.groups| != 6) || |f.groups| > 6 then None
      else
        match ParseQuad(s)
        case None => None
        case Some(q) => Some(f.(groups := f.groups + TailGroups(q)))
    else
      var g := f.(groups := f.groups + [HexValue(s[..n])]);
      var rest := s[n..];
      if rest == "" then Some(g)
      else if rest[0] != ':' || |rest| == 1 then None
      else if rest[1] != ':' then ReadFields(rest[1..], g)
      else if g.gap.Some? then None
      else
        var h := g.(gap := Some(|g.groups|));
        if |rest| == 2 then Some(h) else ReadFields(rest[2..], h)
  }

  function Zeros(n: nat): (z: seq<Group>)
    ensures |z| == n && forall i | 0 <= i < n :: z[i] == 0
  {
    seq(n, i => 0)
  }

  // "::" stands for at least one field of zeros.
  function Filled(f: Fields): Option<seq<Group>>
    requires GapInside(f)
  {
    match f.gap
    case None => if |f.groups| == 8 then Some(f.groups) else None
    case Some(at) =>
      if |f.groups| == 8 then None
      else Some(f.groups[..at] + Zeros(8 - |f.groups|) + f.groups[at..])
  }

  // An IPv6 literal without zone.
  function ParseIpv6(s: string): Option<seq<Group>> {
    if '%' in s then None
    else if |s| >= 2 && s[0] == ':' && s[1] == ':' then
      if |s| == 2 then Some(Zeros(8))
      else
        match ReadFields(s[2..], Fields([], Some(0)))
        case None => None
        case Some(f) => Filled(f)
    else
      match ReadFields(s, Fields([], None))
      case None => None
      case Some(f) => Filled(f)
  }

  datatype Address = V4(q: Quad) | V6(groups: seq<Group>)

  // The first dot or colon decides which kind of literal it is.
  function ParseFrom(s: string, rest: string): Option<Address> {
    if rest == "" || rest[0] == '%' then None
    else if rest[0] == '.' then
      match ParseQuad(s)
      case None => None
      case Some(q) => Some(V4(q))
    else if rest[0] == ':' then
      match ParseIpv6(s)
      case None => None
      case Some(groups) => Some(V6(groups))
    else ParseFrom(s, rest[1..])
  }

  // net.ParseIP.
  function ParseIp(s: string): Option<Address> {
    ParseFrom(s, s)
  }

  predicate Mapped(groups: seq<Group>) {
    |groups| == 8 && groups[..5] == Zeros(5) && groups[5] == 0xffff
  }

  function LowQuad(groups: seq<Group>): Quad
    requires |groups| == 8
  {
    Quad(groups[6] / 256, groups[6] % 256, groups[7] / 256, groups[7] % 256)
  }

  // ParseIP and To4 together.
  function To4(s: string): Option<Quad> {
    match ParseIp(s)
    case None => None
    case Some(V4(q)) => Some(q)
    case Some(V6(groups)) => if Mapped(groups) then Some(LowQuad(groups)) else None
  }

  // ------------------------------------------------ dotted literals

  lemma {:induction false} DottedFrom(s: string, rest: string)
    requires '.' in rest && ':' !in rest && '%' !in rest
    ensures ParseFrom(s, rest) == match ParseQuad(s) case None => None case Some(q) => Some(V4(q))
  {
    hide ParseQuad;
    if rest[0] != '.' {
      assert rest[0] in rest;
      assert rest == [rest[0]] + rest[1..];
      DottedFrom(s, rest[1..]);
    }
  }

  lemma {:induction false} NoDotFrom(s: string, rest: string)
    requires '.' !in rest && ':' !in rest
    ensures ParseFrom(s, rest) == None
  {
    if rest != "" {
      assert rest[0] in rest && forall c | c in rest[1..] :: c in rest;
      NoDotFrom(s, rest[1..]);
    }
  }

  lemma NumberHasNo(n: nat, c: char)
    requires !('0' <= c <= '9')
    ensures c !in Numerals.Show(n, Numerals.Ten)
  {
    var s := Numerals.Show(n, Numerals.Ten);
    forall i | 0 <= i < |s| ensures s[i] != c {
      assert Numerals.IsDigit(s[i], Numerals.Ten);
    }
  }

  lemma QuadHasNo(q: Quad, c: char)
    requires !('0' <= c <= '9') && c != '.'
    ensures c !in ShowQuad(q)
  {
    NumberHasNo(q.a, c);
    NumberHasNo(q.b, c);
    NumberHasNo(q.c, c);
    NumberHasNo(q.d, c);
    QuadText(q);
    hide Numerals.Show, ShowQuad;
  }

  lemma QuadHasDot(q: Quad)
    ensures '.' in ShowQuad(q)
  {
    QuadText(q);
    hide ShowQuad, ShowOctet;
    assert ShowQuad(q)[|ShowOctet(q.a)|] == '.';
  }

  /** A dotted literal reads as itself, whether or not mapped literals are also accepted. */
  lemma DottedRead(s: string)
    requires ParseQuad(s).Some?
    ensures To4(s) == ParseQuad(s)
  {
    hide ParseQuad, ShowQuad;
    var q := ParseQuad(s).value;
    QuadCanonical(s);
    QuadHasNo(q, ':');
    QuadHasNo(q, '%');
    QuadHasDot(q);
    DottedFrom(s, s);
  }

  /** Exactly the literals accepted as a static address: dotted IPv4, and IPv6 literals that map an IPv4 address. */
  lemma To4Iff(s: string)
    ensures To4(s).Some? <==>
              || ParseQuad(s).Some?
              || (ParseIp(s).Some? && ParseIp(s).value.V6?
                  && var groups := ParseIp(s).value.groups;
                     |groups| == 8 && groups[5] == 0xffff && forall i | 0 <= i < 5 :: groups[i] == 0)
  {
    hide ParseQuad, ParseIpv6, Mapped;
    if ParseQuad(s).Some? {
      DottedRead(s);
    }
    if ParseIp(s).Some? && ParseIp(s).value.V6? {
      MappedMeans(ParseIp(s).value.groups);
    }
    KindOf(s, s);
  }

  lemma MappedMeans(groups: seq<Group>)
    ensures Mapped(groups) <==>
              |groups| == 8 && groups[5] == 0xffff && forall i | 0 <= i < 5 :: groups[i] == 0
  {
    if |groups| == 8 {
      assert forall i | 0 <= i < 5 :: groups[..5][i] == groups[i];
    }
  }

  lemma {:induction false} KindOf(s: string, rest: string)
    ensures ParseFrom(s, rest).Some? && ParseFrom(s, rest).value.V4? ==>
        ParseQuad(s) == Some(ParseFrom(s, rest).value.q)
    ensures ParseFrom(s, rest).Some? && ParseFrom(s, rest).value.V6? ==>
        ParseIpv6(s) == Some(ParseFrom(s, rest).value.groups)
  {
    hide ParseQuad, ParseIpv6;
    if rest != "" && rest[0] !in {'%', '.', ':'} {
      KindOf(s, rest[1..]);
    }
  }

  // ------------------------------------------------ mapped literals

  lemma {:induction false} HexRunOf(digits: string, rest: string)
    requires Numerals.AllDigits(digits, Numerals.Sixteen) && (rest == "" || !HexDigit(rest[0]))
    ensures HexRun(digits + rest) == |digits|
  {
    if digits == "" {
      assert digits + rest == rest;
    } else {
      assert (digits + rest)[1..] == digits[1..] + rest;
      HexRunOf(digits[1..], rest);
    }
  }

  // The first field of a dotted tail is hexadecimal text of at most three digits.
  lemma OctetText(o: Octet)
    ensures var s := ShowOctet(o); 1 <= |s| <= 3 && Numerals.AllDigits(s, Numerals.Sixteen)
  {
    var s := ShowOctet(o);
    forall i | 0 <= i < |s| ensures HexDigit(s[i]) {
      assert Numerals.IsDigit(s[i], Numerals.Ten);
    }
    OctetLength(o);
  }

  lemma OctetLength(o: Octet)
    ensures 1 <= |ShowOctet(o)| <= 3
  {
    if o >= 10 {
      assert |Numerals.Show(o / 10, Numerals.Ten)| == if o < 100 then 1 else 1 + |Numerals.Show(o / 100, Numerals.Ten)|;
    }
  }

  lemma TailRead(q: Quad, f: Fields)
    requires GapInside(f)
    ensures ReadFields(ShowQuad(q), f) ==
              if |f.groups| == 6 || (f.gap.Some? && |f.groups| < 6) then Some(f.(groups := f.groups + TailGroups(q)))
              else None
  {
    hide ShowQuad, ParseQuad, ShowOctet, Numerals.AllDigits, HexValue;
    var s := ShowQuad(q);
    QuadText(q);
    OctetText(q.a);
    var rest := "." + (ShowOctet(q.b) + ("." + (ShowOctet(q.c) + ("." + ShowOctet(q.d)))));
    assert rest[0] == '.' && !HexDigit('.');
    HexRunOf(ShowOctet(q.a), rest);
    assert s[|ShowOctet(q.a)|] == '.';
    QuadRoundTrip(q);
  }

  /** The mapped form of an IPv4 address is read, and normalised to its four octets. */
  lemma MappedRead(q: Quad)
    ensures To4("::ffff:" + ShowQuad(q)) == Some(q)
  {
    hide ShowQuad, ParseQuad, HexRun, HexValue, ReadFields, Zeros;
    var tail := ShowQuad(q);
    var s := "::ffff:" + tail;
    QuadHasNo(q, '%');
    QuadHasNo(q, ':');
    QuadHasDot(q);
    assert s[2..] == "ffff:" + tail;
    FirstField(q);
    var f := Fields([0xffff], Some(0));
    TailRead(q, f);
    var groups := Zeros(5) + [0xffff] + TailGroups(q);
    assert Filled(Fields([0xffff] + TailGroups(q), Some(0))).value == groups by { FilledMapped(q); }
    assert ParseIpv6(s) == Some(groups);
    assert ParseFrom(s, s) == Some(V6(groups));
    LowOfMapped(q);
  }

  lemma FilledMapped(q: Quad)
    ensures var f := Fields([0xffff] + TailGroups(q), Some(0));
            GapInside(f) && Filled(f) == Some(Zeros(5) + [0xffff] + TailGroups(q))
  {
    var f := Fields([0xffff] + TailGroups(q), Some(0));
    assert f.groups[..0] + Zeros(5) + f.groups[0..] == Zeros(5) + [0xffff] + TailGroups(q);
  }

  lemma FirstField(q: Quad)
    ensures ReadFields("ffff:" + ShowQuad(q), Fields([], Some(0))) == ReadFields(ShowQuad(q), Fields([0xffff], Some(0)))
  {
    hide ShowQuad, ParseQuad, Numerals.AllDigits;
    var tail := ShowQuad(q);
    var s := "ffff:" + tail;
    FfffDigits();
    HexRunOf("ffff", ":" + tail);
    assert s == "ffff" + (":" + tail);
    assert s[..4] == "ffff" && s[4..] == ":" + tail && s[4] == ':';
    QuadHasNo(q, ':');
    QuadHasDot(q);
    assert (":" + tail)[1..] == tail;
    assert [] + [0xffff] == [0xffff];
  }

  lemma FfffDigits()
    ensures Numerals.AllDigits("ffff", Numerals.Sixteen) && HexValue("ffff") == 0xffff
    ensures !HexDigit(':')
  {
    assert "ffff"[..3] == "fff" && "fff"[..2] == "ff" && "ff"[..1] == "f" && "f"[..0] == "";
    assert Numerals.Value("f", Numerals.Sixteen) == 15;
    assert Numerals.Value("ff", Numerals.Sixteen) == 255;
    assert Numerals.Value("fff", Numerals.Sixteen) == 4095;
  }

  lemma LowOfMapped(q: Quad)
    ensures var groups := Zeros(5) + [0xffff] + TailGroups(q); Mapped(groups) && LowQuad(groups) == q
  {
    var groups := Zeros(5) + [0xffff] + TailGroups(q);
    assert groups[..5] == Zeros(5);
    LastOctet(q.a, q.b);
    LastOctet(q.c, q.d);
  }

  // ------------------------------------------------ full literals

  function ShowGroup(g: Group): string {
    Numerals.Show(g, Numerals.Sixteen)
  }

  // Fields joined by colons.
  function ShowGroups(groups: seq<Group>): string
    requires groups != []
  {
    if |groups| == 1 then ShowGroup(groups[0]) else ShowGroup(groups[0]) + (":" + ShowGroups(groups[1..]))
  }

  lemma GroupText(g: Group)
    ensures var s := ShowGroup(g);
            1 <= |s| <= 4 && Numerals.AllDigits(s, Numerals.Sixteen) && HexValue(s) == g
  {
    GroupLength(g);
    Numerals.ValueOfShow(g, Numerals.Sixteen);
  }

  lemma GroupLength(g: Group)
    ensures 1 <= |ShowGroup(g)| <= 4
  {
    if g >= 16 {
      DigitsBelow(g / 16, 3);
    }
  }

  lemma {:induction false} DigitsBelow(n: nat, k: nat)
    requires 1 <= k <= 3 && n < (if k == 1 then 16 else if k == 2 then 256 else 4096)
    ensures |Numerals.Show(n, Numerals.Sixteen)| <= k
  {
    if n >= 16 {
      DigitsBelow(n / 16, k - 1);
    }
  }

  lemma OneField(g: Group, rest: string, f: Fields)
    requires GapInside(f) && |f.groups| < 8
    requires rest == "" || (rest[0] == ':' && |rest| > 1 && rest[1] != ':')
    ensures var h := f.(groups := f.groups + [g]);
            ReadFields(ShowGroup(g) + rest, f) == if rest == "" then Some(h) else ReadFields(rest[1..], h)
  {
    var digits := ShowGroup(g);
    GroupText(g);
    FfffDigits();
    hide ShowGroup, HexValue, Numerals.AllDigits, ParseQuad, HexRun;
    HexRunOf(digits, rest);
    var s := digits + rest;
    assert s[..|digits|] == digits && s[|digits|..] == rest;
    assert rest != "" ==> s[|digits|] == ':';
  }

  lemma {:induction false} GroupsRead(groups: seq<Group>, f: Fields)
    requires groups != [] && GapInside(f) && |f.groups| + |groups| <= 8
    ensures ReadFields(ShowGroups(groups), f) == Some(f.(groups := f.groups + groups))
    decreases |groups|
  {
    hide ShowGroup, ReadFields;
    var g := groups[0];
    if |groups| == 1 {
      OneField(g, "", f);
      assert ShowGroup(g) + "" == ShowGroup(g);
      assert groups == [g];
    } else {
      var rest := ":" + ShowGroups(groups[1..]);
      FirstNoColon(groups[1..]);
      OneField(g, rest, f);
      assert rest[1..] == ShowGroups(groups[1..]);
      GroupsRead(groups[1..], f.(groups := f.groups + [g]));
      assert f.groups + [g] + groups[1..] == f.groups + groups;
    }
  }

  lemma FirstNoColon(groups: seq<Group>)
    requires groups != []
    ensures ShowGroups(groups) != "" && ShowGroups(groups)[0] != ':'
  {
    hide ShowGroup;
    GroupText(groups[0]);
    assert Numerals.IsDigit(ShowGroup(groups[0])[0], Numerals.Sixteen);
  }

  lemma {:induction false} GroupsHaveNo(groups: seq<Group>, c: char)
    requires groups != [] && c != ':' && !HexDigit(c)
    ensures c !in ShowGroups(groups)
  {
    var s := ShowGroup(groups[0]);
    assert forall i | 0 <= i < |s| :: Numerals.IsDigit(s[i], Numerals.Sixteen);
    hide ShowGroup;
    if |groups| > 1 {
      GroupsHaveNo(groups[1..], c);
    }
  }

  /** Eight fields printed with colons read back as themselves. */
  lemma Ipv6RoundTrip(groups: seq<Group>)
    requires |groups| == 8
    ensures ParseIpv6(ShowGroups(groups)) == Some(groups)
  {
    hide ShowGroups, ReadFields;
    GroupsHaveNo(groups, '%');
    FirstNoColon(groups);
    GroupsRead(groups, Fields([], None));
    assert [] + groups == groups;
  }

  // ------------------------------------------------ shortened literals

  // Fields that may be missing.
  function ShowSome(groups: seq<Group>): string {
    if groups == [] then "" else ShowGroups(groups)
  }

  // The fields read when the text goes on behind a gap.
  function Behind(tail: string, f: Fields): Option<Fields>
    requires GapInside(f)
  {
    if tail == "" then Some(f) else ReadFields(tail, f)
  }

  lemma GapField(g: Group, tail: string, f: Fields)
    requires GapInside(f) && |f.groups| < 8
    ensures var h := f.(groups := f.groups + [g]);
            ReadFields(ShowGroup(g) + ("::" + tail), f)
            == if f.gap.Some? then None else Behind(tail, h.(gap := Some(|h.groups|)))
  {
    var digits, rest := ShowGroup(g), "::" + tail;
    GroupText(g);
    FfffDigits();
    hide ShowGroup, HexValue, Numerals.AllDigits, ParseQuad, HexRun;
    HexRunOf(digits, rest);
    var s := digits + rest;
    assert s[..|digits|] == digits && s[|digits|..] == rest;
    assert s[|digits|] == ':' && rest[1] == ':' && rest[2..] == tail;
  }

  lemma {:induction false} GroupsThenGap(front: seq<Group>, tail: string, f: Fields)
    requires front != [] && GapInside(f) && |f.groups| + |front| <= 8
    ensures ReadFields(ShowGroups(front) + ("::" + tail), f) ==
              if f.gap.Some? then None
              else Behind(tail, Fields(f.groups + front, Some(|f.groups| + |front|)))
    decreases |front|
  {
    hide ShowGroup, ReadFields, Behind;
    var g := front[0];
    if |front| == 1 {
      GapField(g, tail, f);
      assert front == [g];
    } else {
      var more := ShowGroups(front[1..]) + ("::" + tail);
      var rest := ":" + more;
      FirstNoColon(front[1..]);
      OneField(g, rest, f);
      assert ShowGroups(front) + ("::" + tail) == ShowGroup(g) + rest;
      assert rest[1..] == more;
      GroupsThenGap(front[1..], tail, f.(groups := f.groups + [g]));
      assert f.groups + [g] + front[1..] == f.groups + front;
    }
  }

  /** A gap stands for the missing fields, and for at least one. */
  lemma Ipv6GapRoundTrip(front: seq<Group>, back: seq<Group>)
    requires |front| + |back| <= 8
    ensures ParseIpv6(ShowSome(front) + "::" + ShowSome(back))
         == if |front| + |back| == 8 then None else Some(front + Zeros(8 - |front| - |back|) + back)
  {
    hide ShowGroups, ReadFields;
    var tail := ShowSome(back);
    var s := ShowSome(front) + "::" + tail;
    var h := Fields(front, Some(|front|));
    NoZone(front);
    NoZone(back);
    BackRead(back, h);
    if front == [] {
      assert s == "::" + tail && s[2..] == tail;
      assert [] + Zeros(8 - |back|) + back == Zeros(8 - |back|) + back;
      assert |back| == 0 ==> Zeros(8) + back == Zeros(8);
      assert [] + back == back && back[..0] == [];
    } else {
      FirstNoColon(front);
      assert s == ShowGroups(front) + ("::" + tail);
      assert s[0] != ':';
      GroupsThenGap(front, tail, Fields([], None));
      assert [] + front == front;
      assert (front + back)[..|front|] == front && (front + back)[|front|..] == back;
    }
  }

  lemma NoZone(groups: seq<Group>)
    ensures '%' !in ShowSome(groups)
  {
    hide ShowGroups;
    if groups != [] {
      GroupsHaveNo(groups, '%');
    }
  }

  lemma BackRead(back: seq<Group>, h: Fields)
    requires GapInside(h) && |h.groups| + |back| <= 8
    ensures Behind(ShowSome(back), h) == Some(h.(groups := h.groups + back))
  {
    hide ShowGroups, ReadFields;
    if back == [] {
      assert h.groups + back == h.groups;
    } else {
      FirstNoColon(back);
      GroupsRead(back, h);
    }
  }

  /** Too few fields, or a second gap, make no address. */
  lemma Ipv6Refused(a: seq<Group>, b: seq<Group>, tail: string)
    requires a != [] && b != [] && |a| + |b| <= 8
    ensures |a| < 8 && ParseIpv6(ShowGroups(a)) == None
    ensures ParseIpv6(ShowGroups(a) + "::" + (ShowGroups(b) + ("::" + tail))) == None
  {
    hide ShowGroups, ReadFields;
    FirstNoColon(a);
    FirstNoColon(b);
    GroupsRead(a, Fields([], None));
    assert [] + a == a;
    var rest := ShowGroups(b) + ("::" + tail);
    var s := ShowGroups(a) + "::" + rest;
    assert s == ShowGroups(a) + ("::" + rest);
    assert s[0] == ShowGroups(a)[0];
    GroupsThenGap(a, rest, Fields([], None));
    GroupsThenGap(b, tail, Fields(a, Some(|a|)));
  }

  /** Nor does a field of more than four digits. */
  lemma LongField(digits: string, rest: string, f: Fields)
    requires GapInside(f) && |digits| > 4 && Numerals.AllDigits(digits, Numerals.Sixteen)
    requires rest == "" || !HexDigit(rest[0])
    ensures ReadFields(digits + rest, f) == None
  {
    hide ParseQuad, HexRun, HexValue;
    HexRunOf(digits, rest);
  }

  lemma {:induction false} GroupsThenText(front: seq<Group>, tail: string, f: Fields)
    requires front != [] && GapInside(f) && |f.groups| + |front| <= 8 && tail != "" && tail[0] != ':'
    ensures ReadFields(ShowGroups(front) + (":" + tail), f)
         == ReadFields(tail, f.(groups := f.groups + front))
    decreases |front|
  {
    hide ShowGroup, ReadFields, ShowGroups;
    var g := front[0];
    if |front| == 1 {
      LastGroup(front);
      OneField(g, ":" + tail, f);
      assert (":" + tail)[1..] == tail;
      assert front == [g];
    } else {
      var h := f.(groups := f.groups + [g]);
      var more := ShowGroups(front[1..]) + (":" + tail);
      FirstNoColon(front[1..]);
      NextGroup(front, ":" + tail);
      OneField(g, ":" + more, f);
      assert (":" + more)[1..] == more;
      GroupsThenText(front[1..], tail, h);
      assert h.groups + front[1..] == f.groups + front;
    }
  }

  lemma LastGroup(front: seq<Group>)
    requires |front| == 1
    ensures ShowGroups(front) == ShowGroup(front[0])
  {
  }

  lemma NextGroup(front: seq<Group>, rest: string)
    requires |front| > 1
    ensures ShowGroups(front) + rest == ShowGroup(front[0]) + (":" + (ShowGroups(front[1..]) + rest))
  {
    hide ShowGroup;
    var more := ShowGroups(front[1..]);
    assert ShowGroups(front) == ShowGroup(front[0]) + (":" + more);
  }

  /** Without a gap, a dotted tail stands behind exactly six fields. */
  lemma DottedTail(front: seq<Group>, q: Quad)
    requires 0 < |front| <= 8
    ensures ParseIpv6(ShowGroups(front) + (":" + ShowQuad(q)))
         == if |front| == 6 then Some(front + TailGroups(q)) else None
  {
    hide ShowGroups, ReadFields, ShowQuad;
    var tail := ShowQuad(q);
    QuadHasNo(q, '%');
    QuadHasNo(q, ':');
    QuadHasDot(q);
    NoZone(front);
    FirstNoColon(front);
    GroupsThenText(front, tail, Fields([], None));
    assert [] + front == front;
    TailRead(q, Fields(front, None));
  }
}
