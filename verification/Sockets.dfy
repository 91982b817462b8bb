/** Which listeners a rendered file really opens: every line counts, also one that hides behind a newline in a value. */
module Sockets {
  import opened Wrappers
  import opened Records
  import opened Config
  import Cidr
  import Ipv4
  import Numerals
  import Ordering
  import Paths
  import Text

  // ------------------------------------------------ keys

  predicate KeyChar(c: char) {
    'a' <= c <= 'z' || c == '-' || c == '_' || c == '4' || c == '6'
  }

  predicate GoodKey(key: string) {
    key != "" && forall i | 0 <= i < |key| :: KeyChar(key[i])
  }

  lemma GoodKeyMeans(key: string)
    requires GoodKey(key)
    ensures key != "" && Text.Trimmed(key) && '=' !in key && Text.NL !in key && key[0] != '#'
  {
    assert KeyChar(key[0]) && KeyChar(key[|key| - 1]);
  }

  lemma AuthTexts(k: Key)
    requires k in {AuthKey, EnableAuth, CaCert, CertUserOid, Crl}
    ensures GoodKey(KeyText(k))
  {
  }

  lemma SocketTexts(k: Key)
    requires k in {ServerCert, ServerKey, SocketFile, OcctlSocketFile, UseOcctl}
    ensures GoodKey(KeyText(k))
  {
  }

  lemma DeviceTexts(k: Key)
    requires k in {Device, ConfigPerUser, CamouflageOn, CamouflageSecret}
    ensures GoodKey(KeyText(k))
  {
  }

  lemma NetworkTexts(k: Key)
    requires k in {CamouflageRealm, Ipv4Network, Ipv4Netmask, Ipv6Network}
    ensures GoodKey(KeyText(k))
  {
  }

  lemma RouteTexts(k: Key)
    requires k in {Dns, Route, DefaultDomain, MaxClients}
    ensures GoodKey(KeyText(k))
  {
  }

  lemma LimitTexts(k: Key)
    requires k in {MaxSameClients, TryMtuDiscovery}
    ensures GoodKey(KeyText(k))
  {
  }

  lemma CompatTexts(k: Key)
    requires k in {CiscoClientCompat, DtlsLegacy}
    ensures GoodKey(KeyText(k))
  {
  }

  lemma PortTexts(k: Key)
    requires k in {TcpPort, UdpPort}
    ensures GoodKey(KeyText(k))
  {
  }

  lemma ListenTexts(k: Key)
    requires k in {ListenHost, ListenProxyProto}
    ensures GoodKey(KeyText(k))
  {
  }

  lemma KeyTextGood(k: Key)
    ensures var key := KeyText(k); key != "" && Text.Trimmed(key) && '=' !in key && Text.NL !in key && key[0] != '#'
  {
    hide KeyText, GoodKey;
    assert GoodKey(KeyText(k)) by { KeyTextChars(k); }
    GoodKeyMeans(KeyText(k));
  }

  lemma KeyTextChars(k: Key)
    ensures GoodKey(KeyText(k))
  {
    hide KeyText, GoodKey;
    match k
    case AuthKey | EnableAuth | CaCert | CertUserOid | Crl => AuthTexts(k);
    case ServerCert | ServerKey | SocketFile | OcctlSocketFile | UseOcctl => SocketTexts(k);
    case Device | ConfigPerUser | CamouflageOn | CamouflageSecret => DeviceTexts(k);
    case CamouflageRealm | Ipv4Network | Ipv4Netmask | Ipv6Network => NetworkTexts(k);
    case Dns | Route | DefaultDomain | MaxClients => RouteTexts(k);
    case MaxSameClients | TryMtuDiscovery => LimitTexts(k);
    case CiscoClientCompat | DtlsLegacy => CompatTexts(k);
    case TcpPort | UdpPort => PortTexts(k);
    case ListenHost | ListenProxyProto => ListenTexts(k);
  }

  // The four are told apart from the others by length and first character.
  predicate ListenerShape(key: string) {
    key != "" && (|key|, key[0]) in {(8, 't'), (8, 'u'), (11, 'l'), (18, 'l')}
  }

  lemma ListenerShaped(k: Key)
    requires k in LISTENERS
    ensures ListenerShape(KeyText(k))
  {
  }

  lemma OtherShaped(k: Key)
    requires k !in LISTENERS && !k.TryMtuDiscovery? && !k.UseOcctl?
    ensures !ListenerShape(KeyText(k))
  {
    assert KeyText(k)[0] !in {'t', 'u', 'l'};
  }

  lemma SimilarShaped(k: Key)
    requires k.TryMtuDiscovery? || k.UseOcctl?
    ensures !ListenerShape(KeyText(k))
  {
  }

  lemma KeyTextApart(k: Key, l: Key)
    requires l in LISTENERS && k !in LISTENERS
    ensures KeyText(k) != KeyText(l)
  {
    hide KeyText, ListenerShape;
    if k.TryMtuDiscovery? || k.UseOcctl? {
      SimilarShaped(k);
    } else {
      OtherShaped(k);
    }
    ListenerShaped(l);
  }

  // ------------------------------------------------ one line

  lemma TrimOfKey(key: string)
    requires key != "" && Text.Trimmed(key)
    ensures Text.Trim(key + " ") == key
  {
    var s := key + " ";
    assert Text.TrimLeft(s) == s;
    assert s[..|s| - 1] == key;
    assert Text.TrimRight(s) == Text.TrimRight(key) == key;
  }

  lemma DirectiveOf(k: Key, rest: string)
    ensures Directive(KeyText(k) + " = " + rest) == KeyText(k)
  {
    hide KeyText, Text.Split, Text.Trim;
    KeyTextGood(k);
    var before := KeyText(k) + " ";
    assert KeyText(k) + " = " + rest == before + ['='] + (" " + rest);
    Text.SplitCons(before, " " + rest, '=');
    TrimOfKey(KeyText(k));
  }

  lemma SettingIsListener(k: Key, rest: string)
    ensures IsListenerLine(KeyText(k) + " = " + rest) <==> k in LISTENERS
  {
    hide KeyText, Directive;
    DirectiveOf(k, rest);
    if k !in LISTENERS {
      forall l | l in LISTENERS ensures KeyText(k) != KeyText(l) {
        KeyTextApart(k, l);
      }
    }
  }

  // What follows the equals sign does not matter.
  lemma SuffixKeepsListener(line: string, close: string)
    requires '=' !in close
    ensures IsListenerLine(line + close) <==> IsListenerLine(line)
  {
    hide KeyText, Text.Split, Text.Trim;
    Text.SplitBefore(line, close, '=');
    assert Directive(line + close) == Directive(line);
  }

  lemma CommentIsNoListener(text: string)
    ensures !IsListenerLine("# " + text)
  {
    hide KeyText, Directive;
    forall l | l in LISTENERS ensures Directive("# " + text) != KeyText(l) {
      KeyTextGood(l);
      CommentDirective(text);
    }
  }

  lemma CommentDirective(text: string)
    ensures Directive("# " + text) == "" || Directive("# " + text)[0] == '#'
  {
    var line := "# " + text;
    var f := Text.Split(line, '=');
    Text.SplitBehind("#", " " + text, '=');
    assert line == "#" + (" " + text);
    assert f[0][0] == '#';
    TrimStart(f[0]);
  }

  lemma {:induction false} TrimStart(s: string)
    requires s != "" && !Text.IsSpace(s[0])
    ensures Text.Trim(s) != "" && Text.Trim(s)[0] == s[0]
  {
    hide Text.IsSpace;
    if Text.IsSpace(s[|s| - 1]) {
      TrimStart(s[..|s| - 1]);
    }
  }

  lemma EmptyIsNoListener()
    ensures !IsListenerLine("")
  {
    hide KeyText;
    forall l | l in LISTENERS ensures Directive("") != KeyText(l) {
      KeyTextGood(l);
    }
  }

  // ------------------------------------------------ several lines

  lemma {:induction false} ListenersAppend(a: Lines, b: Lines)
    ensures Listeners(a + b) == Listeners(a) + Listeners(b)
  {
    hide IsListenerLine;
    if a == [] {
      assert a + b == b;
    } else {
      assert (a + b)[1..] == a[1..] + b;
      ListenersAppend(a[1..], b);
      var first := if IsListenerLine(a[0]) then [a[0]] else [];
      assert first + (Listeners(a[1..]) + Listeners(b)) == first + Listeners(a[1..]) + Listeners(b);
    }
  }

  lemma ListenersOne(line: string)
    ensures Listeners([line]) == if IsListenerLine(line) then [line] else []
  {
    hide IsListenerLine;
    assert [line][1..] == [];
  }

  lemma {:induction false} ListenersOnly(lines: Lines, l: string)
    requires l in Listeners(lines)
    ensures l in lines
  {
    hide IsListenerLine;
    if !(IsListenerLine(lines[0]) && l == lines[0]) {
      ListenersOnly(lines[1..], l);
    }
  }

  // The listener lines a value brings in behind its first newline.
  function Hidden(value: string): Lines {
    Listeners(Text.Split(value, Text.NL)[1..])
  }

  predicate Hides(value: string) {
    Hidden(value) != []
  }

  lemma OneLineHidesNothing(value: string)
    requires Text.NL !in value
    ensures !Hides(value)
  {
    Text.SplitWhole(value, Text.NL);
  }

  // The listener lines of one printed entry.
  function Brings(e: Entry): Lines {
    Listeners(Text.Split(Line(e), Text.NL))
  }

  lemma FirstAndRest(line: string)
    ensures var f := Text.Split(line, Text.NL);
            Listeners(f) == (if IsListenerLine(f[0]) then [f[0]] else []) + Listeners(f[1..])
  {
    hide IsListenerLine, Text.Split;
    var f := Text.Split(line, Text.NL);
    assert f == [f[0]] + f[1..];
    ListenersOne(f[0]);
    ListenersAppend([f[0]], f[1..]);
  }

  // A setting brings its own line, if it is a listener, and what its value hides.
  lemma BareBrings(k: Key, value: string)
    ensures var own := KeyText(k) + " = " + Text.Split(value, Text.NL)[0];
            Brings(Put(k, value)) == (if k in LISTENERS then [own] else []) + Hidden(value)
  {
    hide KeyText, IsListenerLine, Text.Split, Listeners;
    KeyTextGood(k);
    var before := KeyText(k) + " = ";
    assert Line(Put(k, value)) == before + value;
    Text.SplitBehind(before, value, Text.NL);
    FirstAndRest(before + value);
    SettingIsListener(k, Text.Split(value, Text.NL)[0]);
    var f := Text.Split(value, Text.NL);
    assert ([before + f[0]] + f[1..])[1..] == f[1..];
  }

  lemma WrapsOneLine(w: Wrap)
    ensures Text.NL !in Opening(w) && Text.NL !in Closing(w) && '=' !in Closing(w)
  {
  }

  lemma WrappedLines(before: string, value: string, close: string)
    requires Text.NL !in before && Text.NL !in close && '=' !in close
    ensures var f := Text.Split(before + value + close, Text.NL);
            && before <= f[0]
            && (Listeners(f[1..]) == [] <==> !Hides(value))
  {
    hide IsListenerLine, Text.Split, Listeners;
    var g := Text.Split(value, Text.NL);
    assert before + value + close == before + (value + close);
    Text.SplitBehind(before, value + close, Text.NL);
    Text.SplitBefore(value, close, Text.NL);
    var h := g[..|g| - 1] + [g[|g| - 1] + close];
    var f := [before + h[0]] + h[1..];
    assert f[1..] == h[1..];
    if |g| > 1 {
      var inner, last := g[1..|g| - 1], g[|g| - 1];
      assert g[1..] == inner + [last] && h[1..] == inner + [last + close];
      ListenersAppend(inner, [last]);
      ListenersAppend(inner, [last + close]);
      ListenersOne(last);
      ListenersOne(last + close);
      SuffixKeepsListener(last, close);
    } else {
      assert h[1..] == [] && g[1..] == [];
    }
  }

  lemma WrappedBrings(k: Key, w: Wrap, value: string)
    requires k !in LISTENERS
    ensures Brings(Setting(k, w, value)) == [] <==> !Hides(value)
  {
    hide KeyText, IsListenerLine, Text.Split, Listeners, Opening, Closing, Hides;
    KeyTextGood(k);
    WrapsOneLine(w);
    var before := KeyText(k) + " = " + Opening(w);
    var line := before + value + Closing(w);
    assert Line(Setting(k, w, value)) == line;
    WrappedLines(before, value, Closing(w));
    FirstAndRest(line);
    var f := Text.Split(line, Text.NL);
    var rest := f[0][|before|..];
    assert f[0] == KeyText(k) + " = " + (Opening(w) + rest);
    SettingIsListener(k, Opening(w) + rest);
  }

  // The listener lines an entry hides: those behind the first newline of its value as printed.
  function HiddenOf(e: Entry): Lines {
    match e
    case Setting(_, wrap, value) => Hidden(value + Closing(wrap))
    case _ => []
  }

  lemma WrappedHidden(before: string, value: string, close: string)
    requires Text.NL !in before
    ensures Listeners(Text.Split(before + value + close, Text.NL)[1..]) == Hidden(value + close)
  {
    hide IsListenerLine, Text.Split, Listeners;
    assert before + value + close == before + (value + close);
    Text.SplitBehind(before, value + close, Text.NL);
    var g := Text.Split(value + close, Text.NL);
    assert ([before + g[0]] + g[1..])[1..] == g[1..];
  }

  // An entry that opens no socket.
  predicate Silent(e: Entry) {
    match e
    case Empty => true
    case Comment(text) => Text.NL !in text
    case Setting(key, _, value) => key !in LISTENERS && !Hides(value)
  }

  predicate Harmless(e: Entry) {
    match e
    case Empty => true
    case Comment(text) => Text.NL !in text
    case Setting(key, _, _) => key !in LISTENERS
  }

  lemma BringsNothingIff(e: Entry)
    requires Harmless(e)
    ensures Brings(e) == [] <==> Silent(e)
  {
    hide KeyText, IsListenerLine, Listeners, Hides, Text.Split;
    match e
    case Empty =>
      Text.SplitWhole("", Text.NL);
      ListenersOne("");
      EmptyIsNoListener();
    case Comment(text) =>
      Text.SplitWhole("# " + text, Text.NL);
      ListenersOne("# " + text);
      CommentIsNoListener(text);
    case Setting(key, wrap, value) =>
      WrappedBrings(key, wrap, value);
  }

  lemma BringsHidden(e: Entry)
    requires Harmless(e)
    ensures Brings(e) == HiddenOf(e)
  {
    hide KeyText, IsListenerLine, Listeners, Hides, Text.Split, Opening, Closing, Hidden;
    match e
    case Setting(key, wrap, value) =>
      KeyTextGood(key);
      WrapsOneLine(wrap);
      var before := KeyText(key) + " = " + Opening(wrap);
      var line := before + value + Closing(wrap);
      assert Line(e) == line;
      WrappedLines(before, value, Closing(wrap));
      WrappedHidden(before, value, Closing(wrap));
      FirstAndRest(line);
      var rest := Text.Split(line, Text.NL)[0][|before|..];
      assert Text.Split(line, Text.NL)[0] == KeyText(key) + " = " + (Opening(wrap) + rest);
      SettingIsListener(key, Opening(wrap) + rest);
    case _ => BringsNothingIff(e);
  }

  // ------------------------------------------------ whole files

  lemma NothingBound()
    ensures Bound("") == []
  {
    hide KeyText, IsListenerLine;
    EmptyIsNoListener();
    Text.SplitEmpty(Text.NL);
    ListenersOne("");
  }

  lemma BoundCons(e: Entry, rest: string)
    ensures Bound(Line(e) + [Text.NL] + rest) == Brings(e) + Bound(rest)
  {
    hide Line, Listeners, Text.Split;
    Text.SplitConcat(Line(e), rest, Text.NL);
    ListenersAppend(Text.Split(Line(e), Text.NL), Text.Split(rest, Text.NL));
  }

  lemma {:induction false} BoundAppend(a: seq<Entry>, b: seq<Entry>)
    ensures Bound(Print(a + b)) == Bound(Print(a)) + Bound(Print(b))
  {
    hide Bound, Line, Brings;
    if a == [] {
      assert a + b == b;
      NothingBound();
    } else {
      assert (a + b)[1..] == a[1..] + b;
      BoundCons(a[0], Print(a[1..] + b));
      BoundCons(a[0], Print(a[1..]));
      BoundAppend(a[1..], b);
      var first := Brings(a[0]);
      assert first + (Bound(Print(a[1..])) + Bound(Print(b))) == first + Bound(Print(a[1..])) + Bound(Print(b));
    }
  }

  predicate AllSilent(es: seq<Entry>) {
    forall i | 0 <= i < |es| :: Silent(es[i])
  }

  predicate AllHarmless(es: seq<Entry>) {
    forall i | 0 <= i < |es| :: Harmless(es[i])
  }

  lemma {:induction false} BoundNoneIff(es: seq<Entry>)
    requires AllHarmless(es)
    ensures Bound(Print(es)) == [] <==> AllSilent(es)
  {
    hide Bound, Line, Brings, Silent, Harmless;
    if es == [] {
      NothingBound();
    } else {
      BoundCons(es[0], Print(es[1..]));
      BringsNothingIff(es[0]);
      BoundNoneIff(es[1..]);
      assert es == [es[0]] + es[1..];
    }
  }

  // The listener lines hidden in a part of the file, in order.
  function HiddenIn(es: seq<Entry>): Lines {
    if es == [] then [] else HiddenOf(es[0]) + HiddenIn(es[1..])
  }

  lemma {:induction false} BoundHidden(es: seq<Entry>)
    requires AllHarmless(es)
    ensures Bound(Print(es)) == HiddenIn(es)
  {
    hide Bound, Line, Brings, HiddenOf, Harmless;
    if es == [] {
      NothingBound();
    } else {
      BoundCons(es[0], Print(es[1..]));
      BringsHidden(es[0]);
      BoundHidden(es[1..]);
    }
  }

  // ------------------------------------------------ the listener section

  function Printed(es: seq<Entry>): Lines {
    if es == [] then [] else [Line(es[0])] + Printed(es[1..])
  }

  predicate PortEntry(e: Entry) {
    e.Setting? && e.wrap.Bare? && e.key in LISTENERS
  }

  lemma PortBrings(e: Entry)
    requires PortEntry(e)
    ensures |Brings(e)| >= 1
    ensures Text.NL !in e.value ==> Brings(e) == [Line(e)]
  {
    hide KeyText, Brings, Hides;
    BareBrings(e.key, e.value);
    assert e == Put(e.key, e.value);
    if Text.NL !in e.value {
      OneLineHidesNothing(e.value);
      assert !Hides(e.value) ==> Hidden(e.value) == [] by { HidesMeaning(e.value); }
      Text.SplitWhole(e.value, Text.NL);
      assert "" + e.value + "" == e.value;
    }
  }

  lemma HidesMeaning(value: string)
    ensures Hides(value) <==> Hidden(value) != []
  {
  }

  predicate OneLiners(es: seq<Entry>) {
    forall i | 0 <= i < |es| :: es[i].Setting? && Text.NL !in es[i].value
  }

  lemma {:induction false} PortsBound(es: seq<Entry>)
    requires forall i | 0 <= i < |es| :: PortEntry(es[i])
    ensures |Bound(Print(es))| >= |es|
    ensures OneLiners(es) ==> Bound(Print(es)) == Printed(es)
  {
    hide Bound, Line, Brings;
    if es == [] {
      NothingBound();
    } else {
      BoundCons(es[0], Print(es[1..]));
      PortBrings(es[0]);
      PortsBound(es[1..]);
      if OneLiners(es) {
        assert OneLiners(es[1..]) && es[0].Setting?;
      }
    }
  }

  lemma {:induction false} PrintedAt(es: seq<Entry>, i: nat)
    requires i < |es|
    ensures |Printed(es)| == |es| && Printed(es)[i] == Line(es[i])
  {
    hide Line;
    if i > 0 {
      PrintedAt(es[1..], i - 1);
    } else if |es| > 1 {
      PrintedAt(es[1..], 0);
    }
  }

  lemma BoundOneLine(text: string, l: string)
    requires l in Bound(text)
    ensures Text.NL !in l
  {
    hide IsListenerLine;
    ListenersOnly(Text.Split(text, Text.NL), l);
  }

  // The section opens exactly its own lines when, and only when, no value in it holds a newline.
  lemma PortsBoundIff(es: seq<Entry>)
    requires forall i | 0 <= i < |es| :: PortEntry(es[i])
    ensures Bound(Print(es)) == Printed(es) <==> OneLiners(es)
  {
    hide Bound, Print, KeyText;
    PortsBound(es);
    if i :| 0 <= i < |es| && Text.NL in es[i].value {
      PrintedAt(es, i);
      assert Text.NL in Line(es[i]);
      if Bound(Print(es)) == Printed(es) {
        BoundOneLine(Print(es), Line(es[i]));
      }
    }
  }

  lemma PortSection(c: InstanceConfig)
    ensures forall i | 0 <= i < |PortEntries(c)| :: PortEntry(PortEntries(c)[i])
    ensures OneLiners(PortEntries(c)) <==> Text.NL !in c.localBind
  {
    NumberOneLine(c.tcpPort);
    NumberOneLine(c.udpPort);
    hide Numerals.ShowInt;
    var es := PortEntries(c);
    if c.localBind != "" {
      assert Put(ListenHost, c.localBind) in es;
    }
    assert Text.NL !in "true";
  }

  lemma NumberOneLine(n: int)
    ensures Text.NL !in Numerals.ShowInt(n)
  {
    var s := Numerals.ShowInt(n);
    forall i | 0 <= i < |s| ensures s[i] != Text.NL {
      if n < 0 && i > 0 {
        assert Numerals.IsDigit(Numerals.Show(-n, Numerals.Ten)[i - 1], Numerals.Ten);
      } else if n >= 0 {
        assert Numerals.IsDigit(s[i], Numerals.Ten);
      }
    }
  }

  // ------------------------------------------------ the condition on a config

  // No printed value outside the listener section hides a listener line behind a newline.
  predicate NothingHidden(c: InstanceConfig) {
    AuthClean(c) && SocketsClean(c) && CamouflageClean(c) && NetworkClean(c)
  }

  predicate AuthClean(c: InstanceConfig) {
    && (UsesPassword(c.authMode) ==> !Hides(c.ocpasswdFile))
    && (UsesCert(c.authMode) ==> !Hides(c.caCert) && !Hides(c.crlFile))
    && !Hides(c.serverCert) && !Hides(c.serverKey)
  }

  predicate SocketsClean(c: InstanceConfig) {
    !Hides(c.runSocket) && !Hides(c.occtlSocket) && !Hides(c.device) && !Hides(c.configPerUserDir)
  }

  predicate CamouflageClean(c: InstanceConfig) {
    c.camouflage.enabled ==> !Hides(c.camouflage.secret) && !Hides(c.camouflage.realm)
  }

  predicate NetworkClean(c: InstanceConfig) {
    && !Hides(c.poolCidrV6) && !Hides(c.defaultDomain)
    && (forall i | 0 <= i < |c.dns| :: !Hides(c.dns[i]))
    && (forall i | 0 <= i < |c.routes| :: !Hides(c.routes[i]))
  }

  lemma Constants()
    ensures !Hides("") && !Hides("true") && !Hides("certificate") && !Hides("2.5.4.3")
  {
    hide Hides;
    OneLineHidesNothing("");
    OneLineHidesNothing("true");
    OneLineHidesNothing("certificate");
    OneLineHidesNothing("2.5.4.3");
  }

  lemma {:induction false} QuoteOneLine(s: string)
    ensures Text.NL !in QuoteBody(s)
  {
    if s != "" {
      QuoteOneLine(s[1..]);
      QuotedCharOneLine(s[0]);
      hide QuoteChar;
    }
  }

  lemma QuotedCharOneLine(c: char)
    ensures Text.NL !in QuoteChar(c)
  {
  }

  lemma HeadQuiet(c: InstanceConfig)
    ensures AllSilent(HeadEntries(c)) && AllHarmless(HeadEntries(c))
  {
    QuoteOneLine(c.name);
    hide QuoteBody;
    assert Text.NL !in "Generated by openconnectd for instance " && Text.NL !in ". Do not edit by hand.";
  }

  lemma BackendQuietIff(c: InstanceConfig)
    ensures AllHarmless(BackendEntries(c))
    ensures AllSilent(BackendEntries(c)) <==> (UsesPassword(c.authMode) ==> !Hides(c.ocpasswdFile))
  {
    hide Hides;
    Constants();
    var es := BackendEntries(c);
    if AllSilent(es) && UsesPassword(c.authMode) {
      assert Silent(es[|es| - 1]);
    }
  }

  lemma CaQuietIff(c: InstanceConfig)
    ensures AllHarmless(CaEntries(c))
    ensures AllSilent(CaEntries(c)) <==> (UsesCert(c.authMode) ==> !Hides(c.caCert) && !Hides(c.crlFile))
  {
    hide Hides;
    Constants();
    var es := CaEntries(c);
    if AllSilent(es) && UsesCert(c.authMode) {
      assert Silent(es[0]);
      assert c.crlFile != "" ==> Silent(es[2]);
    }
  }

  lemma CertQuietIff(c: InstanceConfig)
    ensures var es := [Empty, Put(ServerCert, c.serverCert), Put(ServerKey, c.serverKey)];
            AllHarmless(es) && (AllSilent(es) <==> !Hides(c.serverCert) && !Hides(c.serverKey))
  {
    hide Hides;
    var es := [Empty, Put(ServerCert, c.serverCert), Put(ServerKey, c.serverKey)];
    if AllSilent(es) {
      assert Silent(es[1]) && Silent(es[2]);
    }
  }

  lemma AuthQuietIff(c: InstanceConfig)
    ensures AllHarmless(AuthEntries(c)) && (AllSilent(AuthEntries(c)) <==> AuthClean(c))
  {
    hide Hides, AllSilent, AllHarmless, BackendEntries, CaEntries;
    BackendQuietIff(c);
    CaQuietIff(c);
    CertQuietIff(c);
    QuietParts(BackendEntries(c), CaEntries(c));
    QuietParts(BackendEntries(c) + CaEntries(c), [Empty, Put(ServerCert, c.serverCert), Put(ServerKey, c.serverKey)]);
  }

  lemma SocketsQuietIff(c: InstanceConfig)
    ensures AllHarmless(SocketEntries(c)) && (AllSilent(SocketEntries(c)) <==> SocketsClean(c))
  {
    hide Hides;
    Constants();
    var es := SocketEntries(c);
    if AllSilent(es) {
      forall e | e in es ensures Silent(e) {
      }
      assert Put(SocketFile, c.runSocket) in es && Put(OcctlSocketFile, c.occtlSocket) in es
          && Put(Device, c.device) in es;
      assert c.configPerUserDir != "" ==> Put(ConfigPerUser, c.configPerUserDir) in es;
    }
  }

  lemma CamouflageQuietIff(c: InstanceConfig)
    ensures AllHarmless(CamouflageEntries(c)) && (AllSilent(CamouflageEntries(c)) <==> CamouflageClean(c))
  {
    hide Hides;
    Constants();
    var es := CamouflageEntries(c);
    if AllSilent(es) && c.camouflage.enabled {
      forall e | e in es ensures Silent(e) {
      }
      assert Setting(CamouflageSecret, InQuotes, c.camouflage.secret) in es;
      assert c.camouflage.realm != "" ==> Setting(CamouflageRealm, InQuotes, c.camouflage.realm) in es;
    }
  }

  lemma LimitsQuiet(c: InstanceConfig)
    ensures AllHarmless(LimitEntries(c)) && AllSilent(LimitEntries(c))
  {
    hide Hides, Numerals.ShowInt, OrDefault;
    Constants();
    NumberOneLine(OrDefault(c.maxClients, 1024));
    NumberOneLine(OrDefault(c.maxSameClients, 2));
    OneLineHidesNothing(Numerals.ShowInt(OrDefault(c.maxClients, 1024)));
    OneLineHidesNothing(Numerals.ShowInt(OrDefault(c.maxSameClients, 2)));
  }

  predicate ClearValues(values: seq<string>) {
    forall i | 0 <= i < |values| :: !Hides(values[i])
  }

  lemma EachQuietIff(key: Key, values: seq<string>)
    requires key !in LISTENERS
    ensures AllHarmless(Each(key, values)) && (AllSilent(Each(key, values)) <==> ClearValues(values))
  {
    hide Hides;
    var es := Each(key, values);
    if AllSilent(es) {
      forall i | 0 <= i < |values| ensures !Hides(values[i]) {
        assert Silent(es[i]);
      }
    }
  }

  lemma SameElementsClear(a: seq<string>, b: seq<string>)
    requires Ordering.Elements(a) == Ordering.Elements(b) && ClearValues(a)
    ensures ClearValues(b)
  {
    hide Hides;
    forall i | 0 <= i < |b| ensures !Hides(b[i]) {
      assert b[i] in Ordering.Elements(a);
    }
  }

  lemma RoutesQuietIff(routes: seq<string>)
    ensures AllHarmless(RouteEntries(routes)) && (AllSilent(RouteEntries(routes)) <==> ClearValues(routes))
  {
    hide Hides, Ordering.Canonical, Ordering.Elements, Each, ClearValues;
    if routes == [] {
      TunnelComment();
      NoValuesClear();
    } else {
      var sorted := Ordering.Canonical(routes);
      EachQuietIff(Route, sorted);
      if ClearValues(sorted) {
        SameElementsClear(sorted, routes);
      }
      if ClearValues(routes) {
        SameElementsClear(routes, sorted);
      }
    }
  }

  lemma TunnelComment()
    ensures AllSilent(RouteEntries([])) && AllHarmless(RouteEntries([]))
  {
    assert Text.NL !in "full tunnel: no explicit route ";
    assert Text.NL !in "\U{21D2} default route pushed";
  }

  lemma NoValuesClear()
    ensures ClearValues([])
  {
  }

  lemma QuietParts(a: seq<Entry>, b: seq<Entry>)
    ensures AllSilent(a + b) <==> AllSilent(a) && AllSilent(b)
    ensures AllHarmless(a + b) <==> AllHarmless(a) && AllHarmless(b)
  {
    hide Silent, Harmless;
    if AllSilent(a + b) {
      forall i | 0 <= i < |a| ensures Silent(a[i]) {
        assert (a + b)[i] == a[i];
      }
      forall i | 0 <= i < |b| ensures Silent(b[i]) {
        assert (a + b)[|a| + i] == b[i];
      }
    }
    if AllHarmless(a + b) {
      forall i | 0 <= i < |a| ensures Harmless(a[i]) {
        assert (a + b)[i] == a[i];
      }
      forall i | 0 <= i < |b| ensures Harmless(b[i]) {
        assert (a + b)[|a| + i] == b[i];
      }
    }
  }

  lemma PoolOneLine(pool: string, c: Cidr.Split)
    requires Cidr.SplitCidr(pool) == Some(c)
    ensures Text.NL !in c.network && Text.NL !in c.netmask
  {
    hide Ipv4.AndQuad, Ipv4.Mask, Ipv4.ShowQuad, Cidr.ParseCidr;
    var b := Cidr.ParseCidr(pool).value;
    QuadOneLine(Ipv4.AndQuad(b.addr, Ipv4.Mask(b.ones)));
    QuadOneLine(Ipv4.Mask(b.ones));
  }

  lemma QuadOneLine(q: Ipv4.Quad)
    ensures Text.NL !in Ipv4.ShowQuad(q)
  {
    NumberOneLine(q.a);
    NumberOneLine(q.b);
    NumberOneLine(q.c);
    NumberOneLine(q.d);
    Ipv4.QuadText(q);
    hide Numerals.Show, Ipv4.ShowQuad;
  }

  lemma NetworkQuietIff(c: InstanceConfig, pool: Cidr.Split)
    requires Text.NL !in pool.network && Text.NL !in pool.netmask
    ensures AllHarmless(NetworkEntries(c, pool)) && (AllSilent(NetworkEntries(c, pool)) <==> NetworkClean(c))
  {
    hide Hides, Each, RouteEntries, ClearValues, AllSilent, AllHarmless;
    var head := [Put(Ipv4Network, pool.network), Put(Ipv4Netmask, pool.netmask)];
    var v6 := When(c.poolCidrV6 != "", Put(Ipv6Network, c.poolCidrV6));
    var dns, routes := Each(Dns, c.dns), RouteEntries(c.routes);
    var domain := When(c.defaultDomain != "", Put(DefaultDomain, c.defaultDomain));
    OneLineHidesNothing(pool.network);
    OneLineHidesNothing(pool.netmask);
    HeadOfNetwork(pool);
    OptionalQuietIff(Ipv6Network, c.poolCidrV6);
    OptionalQuietIff(DefaultDomain, c.defaultDomain);
    EachQuietIff(Dns, c.dns);
    RoutesQuietIff(c.routes);
    EmptyQuiet();
    QuietParts(head, v6);
    QuietParts(head + v6, dns);
    QuietParts(head + v6 + dns, routes);
    QuietParts(head + v6 + dns + routes, domain);
    QuietParts(head + v6 + dns + routes + domain, [Empty]);
    ClearValuesMeaning(c.dns);
    ClearValuesMeaning(c.routes);
  }

  lemma ClearValuesMeaning(values: seq<string>)
    ensures ClearValues(values) <==> forall i | 0 <= i < |values| :: !Hides(values[i])
  {
  }

  lemma HeadOfNetwork(pool: Cidr.Split)
    requires !Hides(pool.network) && !Hides(pool.netmask)
    ensures var head := [Put(Ipv4Network, pool.network), Put(Ipv4Netmask, pool.netmask)];
            AllSilent(head) && AllHarmless(head)
  {
    hide Hides;
  }

  lemma OptionalQuietIff(key: Key, value: string)
    requires key !in LISTENERS
    ensures var es := When(value != "", Put(key, value)); AllHarmless(es) && (AllSilent(es) <==> !Hides(value))
  {
    hide Hides;
    Constants();
    if value != "" {
      assert AllSilent([Put(key, value)]) ==> Silent([Put(key, value)][0]);
    }
  }

  lemma EmptyQuiet()
    ensures AllSilent([Empty]) && AllHarmless([Empty])
  {
  }

  // ------------------------------------------------ what a config opens

  /** What stands before and after the listener section opens no socket exactly when nothing is hidden there. */
  lemma OutsideQuietIff(c: InstanceConfig, pool: Cidr.Split)
    requires Cidr.SplitCidr(c.poolCidr) == Some(pool)
    ensures AllHarmless(EntriesBefore(c)) && AllHarmless(EntriesAfter(c, pool))
    ensures Bound(Print(EntriesBefore(c))) == [] && Bound(Print(EntriesAfter(c, pool))) == [] <==> NothingHidden(c)
  {
    hide *;
    PoolOneLine(c.poolCidr, pool);
    HeadQuiet(c);
    AuthQuietIff(c);
    SocketsQuietIff(c);
    CamouflageQuietIff(c);
    NetworkQuietIff(c, pool);
    LimitsQuiet(c);
    SectionsOf(c, pool);
    QuietParts(HeadEntries(c), AuthEntries(c));
    var s, m, n, l := SocketEntries(c), CamouflageEntries(c), NetworkEntries(c, pool), LimitEntries(c);
    QuietParts(s, m);
    QuietParts(s + m, n);
    QuietParts(s + m + n, l);
    BoundNoneIff(EntriesBefore(c));
    BoundNoneIff(EntriesAfter(c, pool));
  }

  lemma SectionsOf(c: InstanceConfig, pool: Cidr.Split)
    ensures EntriesBefore(c) == HeadEntries(c) + AuthEntries(c)
    ensures EntriesAfter(c, pool)
         == SocketEntries(c) + CamouflageEntries(c) + NetworkEntries(c, pool) + LimitEntries(c)
    ensures NothingHidden(c) <==> AuthClean(c) && SocketsClean(c) && CamouflageClean(c) && NetworkClean(c)
  {
    hide HeadEntries, AuthEntries, SocketEntries, CamouflageEntries, NetworkEntries, LimitEntries, AuthClean,
         SocketsClean, CamouflageClean, NetworkClean;
  }

  // The listener lines of the section alone.
  function SectionBinds(c: InstanceConfig): Lines {
    Bound(Print(PortEntries(c)))
  }

  lemma RenderedParts(c: InstanceConfig)
    requires Render(c).Some?
    ensures Cidr.SplitCidr(c.poolCidr).Some?
    ensures var pool := Cidr.SplitCidr(c.poolCidr).value;
            Bound(Render(c).value)
            == Bound(Print(EntriesBefore(c))) + SectionBinds(c) + Bound(Print(EntriesAfter(c, pool)))
  {
    hide Bound, Print, EntriesBefore, EntriesAfter, PortEntries, Cidr.SplitCidr;
    var pool := Cidr.SplitCidr(c.poolCidr).value;
    BoundAppend(EntriesBefore(c) + PortEntries(c), EntriesAfter(c, pool));
    BoundAppend(EntriesBefore(c), PortEntries(c));
  }

  // What the file opens: hidden lines, the listener section, hidden lines.
  function ListenerLines(c: InstanceConfig): Lines
    requires Render(c).Some?
  {
    HiddenIn(EntriesBefore(c)) + SectionBinds(c) + HiddenIn(EntriesAfter(c, Cidr.SplitCidr(c.poolCidr).value))
  }

  /**
   * Of any rendered file ocserv binds exactly the listener section, with the
   * lines hidden in the values before it in front and those after it behind.
   */
  lemma RenderedBinds(c: InstanceConfig)
    requires Render(c).Some?
    ensures Bound(Render(c).value) == ListenerLines(c)
  {
    hide Bound, Print, EntriesBefore, EntriesAfter, PortEntries, Render, NothingHidden, SectionBinds, Cidr.SplitCidr,
         HiddenIn, Harmless;
    RenderedParts(c);
    var pool := Cidr.SplitCidr(c.poolCidr).value;
    OutsideQuietIff(c, pool);
    BoundHidden(EntriesBefore(c));
    BoundHidden(EntriesAfter(c, pool));
  }

  /**
   * Of the whole file ocserv binds what the listener section says, if and only if no
   * other value hides a listener line.
   */
  lemma RenderedBindsIff(c: InstanceConfig)
    requires Render(c).Some?
    ensures Bound(Render(c).value) == SectionBinds(c) <==> NothingHidden(c)
  {
    hide Bound, Print, EntriesBefore, EntriesAfter, PortEntries, Render, NothingHidden, SectionBinds, Cidr.SplitCidr;
    var pool := Cidr.SplitCidr(c.poolCidr).value by { RenderedParts(c); }
    RenderedParts(c);
    OutsideQuietIff(c, pool);
    var a, p, b := Bound(Print(EntriesBefore(c))), SectionBinds(c), Bound(Print(EntriesAfter(c, pool)));
    if a + p + b == p {
      assert |a| + |p| + |b| == |p|;
    }
  }

  /** And these are the printed listener lines, one by one, if and only if local_bind holds no newline either. */
  lemma RenderedBindsLinesIff(c: InstanceConfig)
    requires Render(c).Some?
    ensures Bound(Render(c).value) == Printed(PortEntries(c)) <==> NothingHidden(c) && Text.NL !in c.localBind
  {
    hide Bound, Print, EntriesBefore, EntriesAfter, PortEntries, Render, NothingHidden, Printed, Cidr.SplitCidr,
         PortEntry;
    RenderedParts(c);
    var pool := Cidr.SplitCidr(c.poolCidr).value;
    OutsideQuietIff(c, pool);
    PortSection(c);
    PortsBound(PortEntries(c));
    PortsBoundIff(PortEntries(c));
    PrintedLength(PortEntries(c));
    var a, p, b := Bound(Print(EntriesBefore(c))), SectionBinds(c), Bound(Print(EntriesAfter(c, pool)));
    if a + p + b == Printed(PortEntries(c)) {
      assert |a| + |p| + |b| == |PortEntries(c)| <= |p|;
    }
  }

  lemma {:induction false} PrintedLength(es: seq<Entry>)
    ensures |Printed(es)| == |es|
  {
    hide Line;
    if es != [] {
      PrintedLength(es[1..]);
    }
  }

  // ------------------------------------------------ records

  predicate Clean(d: Dirs, rec: Instance) {
    NothingHidden(ConfigOf(d, rec))
  }

  lemma SameListenersSameSection(d: Dirs, a: Instance, b: Instance)
    requires !ListenersDiffer(a, b)
    ensures PortEntries(ConfigOf(d, a)) == PortEntries(ConfigOf(d, b))
  {
    hide PkiPath, Paths.Join, Paths.PerUserDir, TunName, HostOnly, ParseListenPort, Numerals.ShowInt;
  }

  // The listener lines of a record's file, read off the record.
  function LinesOf(d: Dirs, rec: Instance): Lines
    requires RenderRecord(d, rec).Some?
  {
    ListenerLines(ConfigOf(d, rec))
  }

  lemma FileLines(d: Dirs, rec: Instance)
    requires RenderRecord(d, rec).Some?
    ensures Bound(RenderRecord(d, rec).value) == LinesOf(d, rec)
  {
    hide Render, ConfigOf, Bound, ListenerLines;
    RenderedBinds(ConfigOf(d, rec));
  }

  /**
   * When listenersDiffer says no, the two files open the same sockets if and
   * only if the lines hidden before and after the common listener section make
   * the same sequence with it; for records that hide none they always do.
   */
  lemma SameListenersSameLines(d: Dirs, a: Instance, b: Instance)
    requires !ListenersDiffer(a, b)
    requires RenderRecord(d, a).Some? && RenderRecord(d, b).Some?
    ensures SectionBinds(ConfigOf(d, a)) == SectionBinds(ConfigOf(d, b))
    ensures Bound(RenderRecord(d, a).value) == Bound(RenderRecord(d, b).value) <==> LinesOf(d, a) == LinesOf(d, b)
    ensures Clean(d, a) ==> (LinesOf(d, a) == LinesOf(d, b) <==> Clean(d, b))
    ensures Clean(d, b) ==> (LinesOf(d, a) == LinesOf(d, b) <==> Clean(d, a))
  {
    hide Render, ConfigOf, Bound, NothingHidden, PortEntries, ListenersDiffer, Print, ListenerLines;
    SameListenersSameSection(d, a, b);
    FileLines(d, a);
    FileLines(d, b);
    RenderedBindsIff(ConfigOf(d, a));
    RenderedBindsIff(ConfigOf(d, b));
  }

  // Other DNS servers never keep a record from rendering.
  lemma DnsRenders(d: Dirs, rec: Instance, dns: seq<string>)
    requires RenderRecord(d, rec).Some?
    ensures RenderRecord(d, rec.(dns := dns)).Some?
  {
    hide PkiPath, TunName, HostOnly, ParseListenPort, Paths.Join, Paths.PerUserDir, Print, EntriesBefore, EntriesAfter,
         PortEntries, Cidr.SplitCidr, Text.Blank;
  }

  // ------------------------------------------------ the condition on a request

  predicate OneLineDirs(d: Dirs) {
    Text.NL !in d.stateDir && Text.NL !in d.configDir && Text.NL !in d.pkiDir && Text.NL !in d.runDir
  }

  // The values of a record that come from the API and stand outside the listener section.
  predicate ClearRecord(rec: Instance) {
    && (rec.camouflage.enabled ==> !Hides(rec.camouflage.secret) && !Hides(rec.camouflage.realm))
    && !Hides(rec.poolCidrV6) && !Hides(HostOnly(rec.publicEndpoint))
    && ClearValues(rec.dns) && ClearValues(rec.routes)
  }

  lemma PathClear(dir: string, file: string)
    requires Text.NL !in dir && Text.NL !in file
    ensures Text.NL !in Paths.Join(dir, file) && !Hides(Paths.Join(dir, file))
  {
    hide Paths.Join, Hides;
    Paths.JoinWithout(dir, file, Text.NL);
    OneLineHidesNothing(Paths.Join(dir, file));
  }

  lemma PkiPathClear(d: Dirs, name: string, file: string)
    requires OneLineDirs(d) && Text.NL !in name && Text.NL !in file
    ensures !Hides(PkiPath(d, name, file))
  {
    hide Paths.Join, Hides;
    PathClear(d.pkiDir, name);
    PathClear(Paths.Join(d.pkiDir, name), file);
  }

  lemma SuffixOneLine(name: string)
    requires Text.NL !in name
    ensures Text.NL !in name + ".ocpasswd" && Text.NL !in name + ".occtl"
    ensures Text.NL !in name + ".sock" && Text.NL !in name + ".per-user"
  {
  }

  lemma DeviceClear(name: string)
    requires Text.NL !in name
    ensures !Hides(TunName(name))
  {
    hide Hides;
    OneLineHidesNothing(TunName(name));
  }

  lemma PathsClear(d: Dirs, rec: Instance)
    requires OneLineDirs(d) && Text.NL !in rec.name
    ensures var c := ConfigOf(d, rec); AuthClean(c) && SocketsClean(c)
  {
    hide Paths.Join, Hides, PkiPath, TunName, HostOnly, ListenPort;
    Constants();
    SuffixOneLine(rec.name);
    PkiPathClear(d, rec.name, "server.pem");
    PkiPathClear(d, rec.name, "server.key");
    PkiPathClear(d, rec.name, "ca.pem");
    PkiPathClear(d, rec.name, "crl.pem");
    PathClear(d.stateDir, rec.name + ".ocpasswd");
    PathClear(d.stateDir, rec.name + ".per-user");
    PathClear(d.runDir, rec.name + ".occtl");
    PathClear(d.runDir, rec.name + ".sock");
    DeviceClear(rec.name);
  }

  /** For names and directories without newlines, the condition is one on the values of the request alone. */
  lemma CleanIff(d: Dirs, rec: Instance)
    requires OneLineDirs(d) && Text.NL !in rec.name
    ensures Clean(d, rec) <==> ClearRecord(rec)
  {
    hide Hides, AuthClean, SocketsClean, PkiPath, TunName, HostOnly, ListenPort, Paths.Join, Paths.PerUserDir;
    PathsClear(d, rec);
  }

  const HIDING := "1.1.1.1" + ['\n'] + "tcp-port = 8443"

  /** A DNS entry that brings in a second port. */
  lemma HidingHides()
    ensures Hides(HIDING)
  {
    hide KeyText;
    assert Text.NL !in "1.1.1.1" && Text.NL !in "tcp-port = 8443";
    Text.SplitCons("1.1.1.1", "tcp-port = 8443", Text.NL);
    Text.SplitWhole("tcp-port = 8443", Text.NL);
    assert ["1.1.1.1", "tcp-port = 8443"][1..] == ["tcp-port = 8443"];
    SettingIsListener(TcpPort, "8443");
    assert KeyText(TcpPort) + " = " + "8443" == "tcp-port = 8443" by { PortText(); }
    hide IsListenerLine, Text.Split;
    ListenersOne("tcp-port = 8443");
  }

  lemma PortText()
    ensures KeyText(TcpPort) + " = " + "8443" == "tcp-port = 8443"
  {
  }
}
