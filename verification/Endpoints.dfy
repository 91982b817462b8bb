/** What a listen address and a public endpoint mean: the port asked for, and the host. */
module Endpoints {
  import opened Wrappers
  import opened Records
  import opened Config
  import opened Sockets
  import Numerals
  import Paths
  import Text

  // ------------------------------------------------ decimal ports

  predicate Decimal(s: string) {
    s != "" && forall i | 0 <= i < |s| :: '0' <= s[i] <= '9'
  }

  function DecimalValue(s: string): nat
    requires forall i | 0 <= i < |s| :: '0' <= s[i] <= '9'
  {
    if s == "" then 0 else 10 * DecimalValue(s[..|s| - 1]) + (s[|s| - 1] as int - '0' as int)
  }

  // A positive number of 64 bits, in decimal, with or without a plus sign.
  predicate PortText(s: string, p: int) {
    && s != ""
    && var digits := if s[0] == '+' then s[1..] else s;
       Decimal(digits) && p == DecimalValue(digits) && 0 < p < 0x8000_0000_0000_0000
  }

  lemma DigitIff(c: char)
    ensures Numerals.IsDigit(c, Numerals.Ten) <==> '0' <= c <= '9'
    ensures '0' <= c <= '9' ==> Numerals.DigitValue(c) == Some(c as int - '0' as int)
  {
  }

  lemma DecimalIff(s: string)
    ensures Decimal(s) <==> s != "" && Numerals.AllDigits(s, Numerals.Ten)
  {
    forall i | 0 <= i < |s| ensures Numerals.IsDigit(s[i], Numerals.Ten) <==> '0' <= s[i] <= '9' {
      DigitIff(s[i]);
    }
  }

  lemma {:induction false} DecimalIsValue(s: string)
    requires Numerals.AllDigits(s, Numerals.Ten) && forall i | 0 <= i < |s| :: '0' <= s[i] <= '9'
    ensures DecimalValue(s) == Numerals.Value(s, Numerals.Ten)
  {
    hide Numerals.DigitValue;
    if s != "" {
      DecimalIsValue(s[..|s| - 1]);
      DigitIff(s[|s| - 1]);
    }
  }

  lemma AtoiIff(s: string, p: int)
    requires p > 0
    ensures Numerals.Atoi(s) == Some(p) <==> PortText(s, p)
  {
    hide Numerals.AllDigits, Numerals.Value, DecimalValue;
    if s != "" {
      DigitsIff(s);
      DigitsIff(s[1..]);
    }
  }

  lemma DigitsIff(s: string)
    ensures Decimal(s) ==> Numerals.Read(s, Numerals.Ten) == Some(DecimalValue(s))
    ensures !Decimal(s) ==> Numerals.Read(s, Numerals.Ten) == None
  {
    DecimalIff(s);
    if Decimal(s) {
      DecimalIsValue(s);
    }
  }

  // ------------------------------------------------ after the last colon

  lemma {:induction false} LastColon(a: string, b: string)
    requires ':' !in b
    ensures LastIndexOf(a + [':'] + b, ':') == |a|
  {
    var s := a + [':'] + b;
    if b != "" {
      var front := b[..|b| - 1];
      assert s[|s| - 1] == b[|b| - 1] && b[|b| - 1] in b;
      assert s[..|s| - 1] == a + [':'] + front;
      LastColon(a, front);
    }
  }

  lemma {:induction false} NoIndex(s: string, c: char)
    requires c !in s
    ensures LastIndexOf(s, c) == -1 && IndexOf(s, c) == -1
  {
    if s != "" {
      assert s[|s| - 1] in s && s[0] in s;
      NoLast(s, c);
      NoIndex(s[1..], c);
    }
  }

  lemma {:induction false} NoLast(s: string, c: char)
    requires c !in s
    ensures LastIndexOf(s, c) == -1
  {
    if s != "" {
      assert s[|s| - 1] in s;
      NoLast(s[..|s| - 1], c);
    }
  }

  lemma {:induction false} FirstIndex(a: string, c: char, b: string)
    requires c !in a
    ensures IndexOf(a + [c] + b, c) == |a|
  {
    var s := a + [c] + b;
    if a != "" {
      assert a[0] in a;
      assert s[1..] == a[1..] + [c] + b;
      FirstIndex(a[1..], c, b);
    }
  }

  lemma {:induction false} TrimLeftKeeps(a: string, rest: string)
    requires a != "" && !Text.IsSpace(a[|a| - 1])
    ensures Text.TrimLeft(a + rest) == Text.TrimLeft(a) + rest
    ensures Text.TrimLeft(a) != "" && Text.TrimLeft(a)[|Text.TrimLeft(a)| - 1] == a[|a| - 1]
  {
    hide Text.IsSpace;
    if Text.IsSpace(a[0]) {
      assert (a + rest)[1..] == a[1..] + rest;
      TrimLeftKeeps(a[1..], rest);
    }
  }

  lemma {:induction false} TrimRightKeeps(a: string, rest: string)
    requires a != "" && !Text.IsSpace(a[|a| - 1])
    ensures Text.TrimRight(a + rest) == a + Text.TrimRight(rest)
  {
    hide Text.IsSpace;
    if rest == "" {
      assert a + rest == a;
    } else if Text.IsSpace(rest[|rest| - 1]) {
      assert (a + rest)[..|a + rest| - 1] == a + rest[..|rest| - 1];
      TrimRightKeeps(a, rest[..|rest| - 1]);
    }
  }

  lemma {:induction false} TrimRightWithin(s: string, c: char)
    requires c !in s
    ensures c !in Text.TrimRight(s)
  {
    if s != "" && Text.IsSpace(s[|s| - 1]) {
      TrimRightWithin(s[..|s| - 1], c);
    }
  }

  lemma ColonNoSpace()
    ensures !Text.IsSpace(':')
  {
  }

  // Trimming a text with a colon keeps the colon in place.
  lemma TrimAround(front: string, tail: string) returns (a: string)
    requires front != "" && front[|front| - 1] == ':'
    ensures Text.Trim(front + tail) == a + [':'] + Text.TrimRight(tail)
  {
    hide Text.IsSpace;
    ColonNoSpace();
    TrimLeftKeeps(front, tail);
    var t := Text.TrimLeft(front);
    TrimRightKeeps(t, tail);
    a := t[..|t| - 1];
    assert t == a + [':'];
  }

  lemma NotANumber(s: string)
    requires ':' in s
    ensures Numerals.Atoi(s) == None
  {
    var digits := Numerals.Unsigned(s);
    assert ':' in digits;
    var i :| 0 <= i < |digits| && digits[i] == ':';
    assert !Numerals.IsDigit(digits[i], Numerals.Ten);
  }

  // The part of a listen address that can name a port, trimmed as the program trims it.
  function PortPart(front: string, tail: string): string {
    if front == "" then Text.Trim(tail) else Text.TrimRight(tail)
  }

  // front ends in the last colon, if there is one.
  predicate SplitAtColon(listen: string, front: string, tail: string) {
    && listen == front + tail && ':' !in tail
    && (front != "" ==> front[|front| - 1] == ':')
  }

  /** The port of a listen address is the number after its last colon, in whatever way the host is written. */
  lemma PortAfterColon(listen: string, front: string, tail: string)
    requires SplitAtColon(listen, front, tail)
    ensures ParseListenPort(listen) == AtoiOr(PortPart(front, tail), 0)
  {
    hide Text.Trim, Text.TrimRight, Numerals.Atoi, LastIndexOf, IndexOf;
    if front == "" {
      assert listen == tail;
      TrimWithin(listen, ':');
      NoIndex(Text.Trim(listen), ':');
      EmptyIsNoNumber();
    } else {
      var a := TrimAround(front, tail);
      var z := Text.TrimRight(tail);
      TrimRightWithin(tail, ':');
      var s := a + [':'] + z;
      LastColon(a, z);
      assert s[|a|] == ':' && s[|a| + 1..] == z;
      NotANumber(s);
    }
  }

  lemma TrimWithin(s: string, c: char)
    requires c !in s
    ensures c !in Text.Trim(s)
  {
    var pre, post := Text.TrimParts(s);
    assert s == pre + Text.Trim(s) + post;
  }

  lemma EmptyIsNoNumber()
    ensures Numerals.Atoi("") == None
  {
  }

  // ------------------------------------------------ the port of a record

  // The port a listen address asks for, or 443 when it names none that can be used.
  ghost predicate PortOf(listen: string, p: int) {
    exists front, tail ::
      && SplitAtColon(listen, front, tail)
      && (PortText(PortPart(front, tail), p) || (p == 443 && forall q :: !PortText(PortPart(front, tail), q)))
  }

  lemma RecordPort(rec: Instance, p: int)
    requires PortOf(rec.listen, p)
    ensures ListenPort(rec) == p
  {
    hide ParseListenPort, PortText, PortPart, Numerals.Atoi;
    var front, tail :|
      && SplitAtColon(rec.listen, front, tail)
      && (PortText(PortPart(front, tail), p) || (p == 443 && forall q :: !PortText(PortPart(front, tail), q)));
    PortAfterColon(rec.listen, front, tail);
    var z := PortPart(front, tail);
    PortPositive(z, p);
    if PortText(z, p) {
      AtoiIff(z, p);
    } else if Numerals.Atoi(z).Some? && Numerals.Atoi(z).value > 0 {
      AtoiIff(z, Numerals.Atoi(z).value);
    }
  }

  lemma PortPositive(z: string, p: int)
    ensures PortText(z, p) ==> p > 0
  {
  }

  /** Every listen address asks for one port. */
  lemma {:induction false} SomePort(listen: string) returns (p: int)
    ensures PortOf(listen, p)
  {
    hide PortText, PortPart;
    var front, tail := LastPiece(listen);
    if q :| PortText(PortPart(front, tail), q) {
      p := q;
    } else {
      p := 443;
    }
  }

  lemma {:induction false} LastPiece(listen: string) returns (front: string, tail: string)
    ensures SplitAtColon(listen, front, tail)
    decreases |listen|
  {
    if listen == "" {
      front, tail := "", "";
    } else if listen[|listen| - 1] == ':' {
      front, tail := listen, "";
    } else {
      var f, t := LastPiece(listen[..|listen| - 1]);
      front, tail := f, t + [listen[|listen| - 1]];
    }
  }

  // ------------------------------------------------ how ports are written

  lemma ShownPort(p: nat)
    requires 0 < p < 0x8000_0000_0000_0000
    ensures var s := Numerals.Show(p, Numerals.Ten);
            PortText(s, p) && ':' !in s && Text.Trimmed(s) && s != ""
  {
    hide Numerals.Value, Numerals.Show;
    var s := Numerals.Show(p, Numerals.Ten);
    Numerals.ReadOfShow(p, Numerals.Ten);
    forall i | 0 <= i < |s| ensures '0' <= s[i] <= '9' {
      DigitIff(s[i]);
    }
    DecimalIsValue(s);
    NoSpaceDigit(s[0]);
    NoSpaceDigit(s[|s| - 1]);
  }

  lemma NoSpaceDigit(c: char)
    ensures '0' <= c <= '9' ==> !Text.IsSpace(c)
  {
  }

  /**
   * A port after any host, an empty one, a bracketed one, or on its own, is the
   * port asked for; so is 443 when nothing or no number is there.
   */
  lemma WrittenPorts(host: string, p: nat)
    requires 0 < p < 0x8000_0000_0000_0000
    ensures PortOf(host + ":" + Numerals.Show(p, Numerals.Ten), p)
    ensures PortOf("[" + host + "]:" + Numerals.Show(p, Numerals.Ten), p)
    ensures PortOf(Numerals.Show(p, Numerals.Ten), p)
  {
    hide PortText, Numerals.Show, Text.IsSpace;
    var s := Numerals.Show(p, Numerals.Ten);
    ShownPort(p);
    assert Text.TrimRight(s) == s;
    Text.TrimmedIsFixed(s);
    assert SplitAtColon(host + ":" + s, host + ":", s);
    assert SplitAtColon("[" + host + "]:" + s, "[" + host + "]:", s);
    assert SplitAtColon(s, "", s);
  }

  // A letter or any other character in the last part makes it no port.
  lemma UnusablePort(host: string, tail: string, i: nat)
    requires ':' !in tail && i < |tail| && !('0' <= tail[i] <= '9') && tail[i] != '+' && !Text.IsSpace(tail[i])
    ensures PortOf(host + ":" + tail, 443) && PortOf(tail, 443)
  {
    hide Text.IsSpace;
    assert SplitAtColon(host + ":" + tail, host + ":", tail);
    assert SplitAtColon(tail, "", tail);
    TrimRightHas(tail, i);
    TrimHas(tail, i);
    StrangePort(Text.TrimRight(tail), tail[i]);
    StrangePort(Text.Trim(tail), tail[i]);
  }

  lemma StrangePort(s: string, c: char)
    requires c in s && !('0' <= c <= '9') && c != '+'
    ensures forall q :: !PortText(s, q)
  {
    var i :| 0 <= i < |s| && s[i] == c;
    if s[0] == '+' {
      assert s[1..][i - 1] == c;
    }
  }

  lemma {:induction false} TrimRightHas(s: string, i: nat)
    requires i < |s| && !Text.IsSpace(s[i])
    ensures s[i] in Text.TrimRight(s)
  {
    hide Text.IsSpace;
    if Text.IsSpace(s[|s| - 1]) {
      TrimRightHas(s[..|s| - 1], i);
    }
  }

  lemma {:induction false} TrimLeftHas(s: string, i: nat)
    requires i < |s| && !Text.IsSpace(s[i])
    ensures s[i] in Text.TrimLeft(s)
  {
    hide Text.IsSpace;
    if Text.IsSpace(s[0]) {
      TrimLeftHas(s[1..], i - 1);
    }
  }

  lemma TrimHas(s: string, i: nat)
    requires i < |s| && !Text.IsSpace(s[i])
    ensures s[i] in Text.Trim(s)
  {
    hide Text.IsSpace;
    TrimLeftHas(s, i);
    var t := Text.TrimLeft(s);
    var j :| 0 <= j < |t| && t[j] == s[i];
    TrimRightHas(t, j);
  }

  /** An address without anything after its last colon, and an empty one, ask for no port. */
  lemma NoPort(host: string)
    ensures PortOf(host + ":", 443) && PortOf("", 443)
  {
    assert SplitAtColon(host + ":", host + ":", "");
    assert SplitAtColon("", "", "");
    assert Text.TrimRight("") == "" && Text.Trim("") == "";
    assert forall q :: !PortText("", q);
  }

  // ------------------------------------------------ hosts

  // No character that separates a host from a port.
  predicate PlainPart(s: string) {
    ':' !in s && '[' !in s && ']' !in s
  }

  /** host:port gives the host. */
  lemma HostOfPlain(host: string, port: string)
    requires PlainPart(host) && PlainPart(port)
    ensures HostOnly(host + ":" + port) == host
  {
    hide LastIndexOf, IndexOf;
    var s := host + [':'] + port;
    LastColon(host, port);
    assert s[..|host|] == host && s[0] != '[';
  }

  /** [host]:port gives the host, which may hold colons. */
  lemma HostOfBracketed(host: string, port: string)
    requires '[' !in host && ']' !in host && PlainPart(port)
    ensures HostOnly("[" + host + "]:" + port) == host
  {
    hide LastIndexOf, IndexOf;
    var s := "[" + host + "]:" + port;
    var a := "[" + host + "]";
    assert s == a + [':'] + port;
    LastColon(a, port);
    assert s == ("[" + host) + [']'] + (":" + port);
    FirstIndex("[" + host, ']', ":" + port);
    assert s[1..|host| + 1] == host;
    assert s[1..] == host + "]:" + port;
    assert s[|host| + 2..] == ":" + port;
  }

  /** Any other endpoint is a host as it stands. */
  lemma HostOtherwise(endpoint: string)
    ensures var host := HostOnly(endpoint);
            || host == endpoint
            || (exists port :: PlainPart(port) && PlainPart(host) && endpoint == host + ":" + port)
            || (exists port ::
                  PlainPart(port) && '[' !in host && ']' !in host && endpoint == "[" + host + "]:" + port)
  {
    var host := HostOnly(endpoint);
    var split := SplitHostPort(endpoint);
    if endpoint != "" && split.Some? {
      var i := LastIndexOf(endpoint, ':');
      var port := endpoint[i + 1..];
      LastIsLast(endpoint, ':');
      if endpoint[0] == '[' {
        var end := IndexOf(endpoint, ']');
        FirstIsFirst(endpoint, ']');
        assert endpoint == "[" + host + "]:" + port;
        assert '[' !in host && ']' !in host;
        assert PlainPart(port);
      } else {
        assert endpoint == host + ":" + port;
        assert PlainPart(port) && PlainPart(host);
      }
    }
  }

  lemma {:induction false} LastIsLast(s: string, c: char)
    requires LastIndexOf(s, c) >= 0
    ensures c !in s[LastIndexOf(s, c) + 1..]
  {
    if s[|s| - 1] != c {
      var front := s[..|s| - 1];
      LastIsLast(front, c);
      var i := LastIndexOf(front, c);
      assert s[i + 1..] == front[i + 1..] + [s[|s| - 1]];
    }
  }

  lemma {:induction false} FirstIsFirst(s: string, c: char)
    requires IndexOf(s, c) >= 0
    ensures c !in s[..IndexOf(s, c)]
  {
    if s[0] != c {
      FirstIsFirst(s[1..], c);
      var i := IndexOf(s[1..], c);
      assert s[..i + 1] == [s[0]] + s[1..][..i];
    }
  }

  // ------------------------------------------------ the listeners of a record

  lemma PortTextsAre()
    ensures KeyText(TcpPort) == "tcp-port" && KeyText(UdpPort) == "udp-port"
  {
  }

  lemma HostTextsAre()
    ensures KeyText(ListenHost) == "listen-host" && KeyText(ListenProxyProto) == "listen-proxy-proto"
  {
  }

  // The listener lines of a record that asks for port p.
  function ListenLines(rec: Instance, p: int): Lines {
    ["tcp-port = " + Numerals.ShowInt(if rec.tcpPort > 0 then rec.tcpPort else p)]
    + (if rec.dtls then ["udp-port = " + Numerals.ShowInt(p)] else [])
    + (if rec.localBind != "" then
         ["listen-host = " + Text.Split(rec.localBind, Text.NL)[0]] + Hidden(rec.localBind)
       else [])
    + (if rec.proxyProto then ["listen-proxy-proto = true"] else [])
  }

  lemma BoundOne(e: Entry)
    ensures Bound(Print([e])) == Brings(e)
  {
    hide Bound, Brings, Line;
    PrintOne(e);
    BoundCons(e, "");
    NothingBound();
    assert Line(e) + [Text.NL] + "" == Line(e) + [Text.NL];
  }

  lemma BoundEmpty()
    ensures Bound(Print([])) == []
  {
    hide Bound;
    NothingBound();
  }

  lemma NumberBrings(key: Key, n: int)
    requires key in LISTENERS
    ensures Brings(Put(key, Numerals.ShowInt(n))) == [KeyText(key) + " = " + Numerals.ShowInt(n)]
  {
    hide Numerals.ShowInt, KeyText, Brings;
    NumberOneLine(n);
    PortBrings(Put(key, Numerals.ShowInt(n)));
    assert "" + Numerals.ShowInt(n) + "" == Numerals.ShowInt(n);
  }

  lemma ProxyBrings()
    ensures Brings(Put(ListenProxyProto, "true")) == [KeyText(ListenProxyProto) + " = " + "true"]
  {
    hide KeyText, Brings;
    assert Text.NL !in "true";
    PortBrings(Put(ListenProxyProto, "true"));
    assert "" + "true" + "" == "true";
  }

  lemma WhenBound(condition: bool, e: Entry)
    ensures Bound(Print(When(condition, e))) == if condition then Brings(e) else []
  {
    hide Bound, Brings, Print;
    BoundOne(e);
    BoundEmpty();
  }

  lemma PortsOf(d: Dirs, rec: Instance, p: int)
    requires ListenPort(rec) == p && p > 0
    ensures var c := ConfigOf(d, rec);
            && PortEntries(c) ==
                 [Put(TcpPort, Numerals.ShowInt(if rec.tcpPort > 0 then rec.tcpPort else p))]
                 + When(rec.dtls, Put(UdpPort, Numerals.ShowInt(p)))
                 + When(rec.localBind != "", Put(ListenHost, rec.localBind))
                 + When(rec.proxyProto, Put(ListenProxyProto, "true"))
  {
    hide PkiPath, Paths.Join, Paths.PerUserDir, TunName, HostOnly, ListenPort, Numerals.ShowInt;
  }

  lemma SectionLines(d: Dirs, rec: Instance, p: int)
    requires ListenPort(rec) == p && p > 0
    ensures SectionBinds(ConfigOf(d, rec)) == ListenLines(rec, p)
  {
    hide Bound, Print, Brings, ConfigOf, PortEntries, ListenPort, KeyText, Numerals.ShowInt, When, Hidden, Text.Split;
    var tcp := Put(TcpPort, Numerals.ShowInt(if rec.tcpPort > 0 then rec.tcpPort else p));
    var udp := Put(UdpPort, Numerals.ShowInt(p));
    var host, proxy := Put(ListenHost, rec.localBind), Put(ListenProxyProto, "true");
    var a, b := When(rec.dtls, udp), When(rec.localBind != "", host);
    PortsOf(d, rec, p);
    BoundAppend([tcp] + a + b, When(rec.proxyProto, proxy));
    BoundAppend([tcp] + a, b);
    BoundAppend([tcp], a);
    BoundOne(tcp);
    WhenBound(rec.dtls, udp);
    WhenBound(rec.localBind != "", host);
    WhenBound(rec.proxyProto, proxy);
    NumberBrings(TcpPort, if rec.tcpPort > 0 then rec.tcpPort else p);
    NumberBrings(UdpPort, p);
    BareBrings(ListenHost, rec.localBind);
    ProxyBrings();
    PortTextsAre();
    HostTextsAre();
    assert "tcp-port" + " = " == "tcp-port = " && "udp-port" + " = " == "udp-port = ";
    assert "listen-host" + " = " == "listen-host = ";
    assert "listen-proxy-proto" + " = " + "true" == "listen-proxy-proto = true";
  }

  lemma PortOfPositive(listen: string, p: int)
    requires PortOf(listen, p)
    ensures p > 0
  {
    hide SplitAtColon, PortPart, PortText;
    var front, tail :|
      && SplitAtColon(listen, front, tail)
      && (PortText(PortPart(front, tail), p) || (p == 443 && forall q :: !PortText(PortPart(front, tail), q)));
    PortPositive(PortPart(front, tail), p);
  }

  /**
   * A rendered file that hides nothing opens exactly the listeners the record asks
   * for: TCP on its own port or the one of the listen address, UDP on the latter
   * when DTLS is on, then the local address and the proxy protocol.
   */
  lemma ListenersAsked(d: Dirs, rec: Instance, p: int)
    requires RenderRecord(d, rec).Some? && Clean(d, rec) && PortOf(rec.listen, p)
    ensures Bound(RenderRecord(d, rec).value) == ListenLines(rec, p)
  {
    hide Bound, Render, ConfigOf, SectionBinds, NothingHidden, ListenLines, PortOf;
    RecordPort(rec, p);
    PortOfPositive(rec.listen, p);
    SectionLines(d, rec, p);
    RenderedBindsIff(ConfigOf(d, rec));
  }
}
