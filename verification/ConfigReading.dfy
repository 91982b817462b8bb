/** Reading a rendered file back: which lines it holds for each setting. */
module ConfigReading {
  import opened Wrappers
  import opened Records
  import opened Config
  import opened Sockets
  import opened Endpoints
  import Cidr
  import Ipv4
  import Numerals
  import Ordering
  import Paths
  import Text

  // ------------------------------------------------ a reader

  function Matching(lines: Lines, key: string): Lines {
    if lines == [] then []
    else (if Directive(lines[0]) == key then [lines[0]] else []) + Matching(lines[1..], key)
  }

  // The lines of a file that set the key.
  function Find(text: string, key: string): Lines {
    Matching(Text.Split(text, Text.NL), key)
  }

  // ------------------------------------------------ keys are told apart

  // The section of the file a key belongs to.
  datatype Section = Auth | Ports | Files | Masks | Network | Limits

  function SectionOf(k: Key): Section {
    match k
    case AuthKey | EnableAuth | CaCert | CertUserOid | Crl | ServerCert | ServerKey => Auth
    case TcpPort | UdpPort | ListenHost | ListenProxyProto => Ports
    case SocketFile | OcctlSocketFile | UseOcctl | Device | ConfigPerUser => Files
    case CamouflageOn | CamouflageSecret | CamouflageRealm => Masks
    case Ipv4Network | Ipv4Netmask | Ipv6Network | Dns | Route | DefaultDomain => Network
    case _ => Limits
  }

  function KeyLength(k: Key): nat {
    match k
    case AuthKey => 4 case EnableAuth => 11 case CaCert => 7 case CertUserOid => 13 case Crl => 3
    case ServerCert => 11 case ServerKey => 10
    case TcpPort => 8 case UdpPort => 8 case ListenHost => 11 case ListenProxyProto => 18
    case SocketFile => 11 case OcctlSocketFile => 17 case UseOcctl => 9 case Device => 6 case ConfigPerUser => 15
    case CamouflageOn => 10 case CamouflageSecret => 17 case CamouflageRealm => 16
    case Ipv4Network => 12 case Ipv4Netmask => 12 case Ipv6Network => 12
    case Dns => 3 case Route => 5 case DefaultDomain => 14
    case MaxClients => 11 case MaxSameClients => 16
    case TryMtuDiscovery => 17 case CiscoClientCompat => 19 case DtlsLegacy => 11
  }

  function Initial(k: Key): char {
    match k
    case AuthKey => 'a' case EnableAuth => 'e'
    case ServerCert | ServerKey | SocketFile => 's'
    case TcpPort | TryMtuDiscovery => 't'
    case UdpPort | UseOcctl => 'u'
    case ListenHost | ListenProxyProto => 'l'
    case OcctlSocketFile => 'o'
    case Device | Dns | DefaultDomain | DtlsLegacy => 'd'
    case Ipv4Network | Ipv4Netmask | Ipv6Network => 'i'
    case Route => 'r'
    case MaxClients | MaxSameClients => 'm'
    case _ => 'c'
  }

  predicate Shaped(k: Key) {
    |KeyText(k)| == KeyLength(k) && KeyLength(k) > 0 && KeyText(k)[0] == Initial(k)
  }

  lemma AuthShaped()
    ensures Shaped(AuthKey) && Shaped(EnableAuth) && Shaped(CaCert) && Shaped(CertUserOid) && Shaped(Crl)
  {
  }

  lemma FilesShaped()
    ensures Shaped(ServerCert) && Shaped(ServerKey) && Shaped(SocketFile) && Shaped(OcctlSocketFile)
  {
  }

  lemma ListenShaped()
    ensures Shaped(TcpPort) && Shaped(UdpPort) && Shaped(ListenHost) && Shaped(ListenProxyProto)
  {
  }

  lemma DeviceShaped()
    ensures Shaped(UseOcctl) && Shaped(Device) && Shaped(ConfigPerUser)
  {
  }

  lemma CamouflageShaped()
    ensures Shaped(CamouflageOn) && Shaped(CamouflageSecret) && Shaped(CamouflageRealm)
  {
  }

  lemma NetworkShaped()
    ensures Shaped(Ipv4Network) && Shaped(Ipv4Netmask) && Shaped(Ipv6Network)
  {
  }

  lemma RouteShaped()
    ensures Shaped(Dns) && Shaped(Route) && Shaped(DefaultDomain)
  {
  }

  lemma LimitShaped()
    ensures Shaped(MaxClients) && Shaped(MaxSameClients)
  {
  }

  lemma CompatShaped()
    ensures Shaped(TryMtuDiscovery) && Shaped(CiscoClientCompat) && Shaped(DtlsLegacy)
  {
  }

  lemma AllShaped(k: Key)
    ensures Shaped(k)
  {
    hide Shaped;
    AuthShaped();
    FilesShaped();
    ListenShaped();
    DeviceShaped();
    CamouflageShaped();
    NetworkShaped();
    RouteShaped();
    LimitShaped();
    CompatShaped();
  }

  lemma ServerNotSocket()
    ensures KeyText(ServerCert) != KeyText(SocketFile)
  {
    assert KeyText(ServerCert)[1] == 'e' && KeyText(SocketFile)[1] == 'o';
  }

  lemma NetworksApart()
    ensures KeyText(Ipv4Network) != KeyText(Ipv4Netmask)
    ensures KeyText(Ipv4Network) != KeyText(Ipv6Network) && KeyText(Ipv4Netmask) != KeyText(Ipv6Network)
  {
    assert KeyText(Ipv4Network)[3] == '4' && KeyText(Ipv4Netmask)[3] == '4' && KeyText(Ipv6Network)[3] == '6';
    assert KeyText(Ipv4Network)[8] == 'w' && KeyText(Ipv4Netmask)[8] == 'm';
  }

  // Different keys that agree in length and first character.
  lemma AlikeFirst(k: Key, l: Key)
    requires SectionOf(k) in {Auth, Ports} && k != l && KeyLength(k) == KeyLength(l) && Initial(k) == Initial(l)
    ensures (k in {ServerCert, SocketFile} && l in {ServerCert, SocketFile})
         || (k in {Ipv4Network, Ipv4Netmask, Ipv6Network} && l in {Ipv4Network, Ipv4Netmask, Ipv6Network})
  {
  }

  lemma AlikeSecond(k: Key, l: Key)
    requires SectionOf(k) in {Files, Masks} && k != l && KeyLength(k) == KeyLength(l) && Initial(k) == Initial(l)
    ensures (k in {ServerCert, SocketFile} && l in {ServerCert, SocketFile})
         || (k in {Ipv4Network, Ipv4Netmask, Ipv6Network} && l in {Ipv4Network, Ipv4Netmask, Ipv6Network})
  {
  }

  lemma AlikeThird(k: Key, l: Key)
    requires SectionOf(k) in {Network, Limits} && k != l && KeyLength(k) == KeyLength(l) && Initial(k) == Initial(l)
    ensures (k in {ServerCert, SocketFile} && l in {ServerCert, SocketFile})
         || (k in {Ipv4Network, Ipv4Netmask, Ipv6Network} && l in {Ipv4Network, Ipv4Netmask, Ipv6Network})
  {
  }

  lemma KeysApart(k: Key, l: Key)
    requires k != l
    ensures KeyText(k) != KeyText(l)
  {
    hide KeyText, KeyLength, Initial, SectionOf;
    AllShaped(k);
    AllShaped(l);
    if KeyLength(k) == KeyLength(l) && Initial(k) == Initial(l) {
      match SectionOf(k) {
        case Auth | Ports => AlikeFirst(k, l);
        case Files | Masks => AlikeSecond(k, l);
        case Network | Limits => AlikeThird(k, l);
      }
      ServerNotSocket();
      NetworksApart();
    }
  }

  // ------------------------------------------------ printed entries

  // The lines of the entries for one key.
  function KeyLines(es: seq<Entry>, k: Key): Lines {
    if es == [] then []
    else (if es[0].Setting? && es[0].key == k then [Line(es[0])] else []) + KeyLines(es[1..], k)
  }

  // The line of one entry that may be printed.
  function Own(printed: bool, e: Entry, k: Key): Lines {
    if printed && e.Setting? && e.key == k then [Line(e)] else []
  }

  predicate AllOneLine(es: seq<Entry>) {
    forall i | 0 <= i < |es| :: Text.NL !in Line(es[i])
  }

  lemma LineSets(e: Entry, k: Key)
    ensures Directive(Line(e)) == KeyText(k) <==> e.Setting? && e.key == k
  {
    hide KeyText, Directive, Opening, Closing;
    KeyTextGood(k);
    match e
    case Empty => EmptySets();
    case Comment(text) => CommentDirective(text);
    case Setting(key, wrap, value) =>
      DirectiveOf(key, Opening(wrap) + value + Closing(wrap));
      if key != k {
        KeysApart(key, k);
      }
  }

  lemma EmptySets()
    ensures Directive("") == ""
  {
  }

  lemma {:induction false} MatchingAppend(a: Lines, b: Lines, key: string)
    ensures Matching(a + b, key) == Matching(a, key) + Matching(b, key)
  {
    hide Directive;
    if a == [] {
      assert a + b == b;
    } else {
      assert (a + b)[1..] == a[1..] + b;
      MatchingAppend(a[1..], b, key);
      var first := if Directive(a[0]) == key then [a[0]] else [];
      assert first + (Matching(a[1..], key) + Matching(b, key)) == first + Matching(a[1..], key) + Matching(b, key);
    }
  }

  lemma MatchingOne(line: string, key: string)
    ensures Matching([line], key) == if Directive(line) == key then [line] else []
  {
    hide Directive;
    assert [line][1..] == [];
  }

  lemma {:induction false} PrintedFound(es: seq<Entry>, k: Key)
    requires AllOneLine(es)
    ensures Find(Print(es), KeyText(k)) == KeyLines(es, k)
  {
    hide KeyText, Directive, Text.Split, Line, Matching;
    if es == [] {
      Text.SplitEmpty(Text.NL);
      MatchingOne("", KeyText(k));
      EmptySets();
      KeyTextGood(k);
    } else {
      var line, rest := Line(es[0]), Print(es[1..]);
      Text.SplitCons(line, rest, Text.NL);
      MatchingAppend([line], Text.Split(rest, Text.NL), KeyText(k));
      MatchingOne(line, KeyText(k));
      LineSets(es[0], k);
      PrintedFound(es[1..], k);
    }
  }

  lemma {:induction false} KeyLinesAppend(a: seq<Entry>, b: seq<Entry>, k: Key)
    ensures KeyLines(a + b, k) == KeyLines(a, k) + KeyLines(b, k)
  {
    hide Line;
    if a == [] {
      assert a + b == b;
    } else {
      assert (a + b)[1..] == a[1..] + b;
      KeyLinesAppend(a[1..], b, k);
      var first := if a[0].Setting? && a[0].key == k then [Line(a[0])] else [];
      assert first + (KeyLines(a[1..], k) + KeyLines(b, k)) == first + KeyLines(a[1..], k) + KeyLines(b, k);
    }
  }

  lemma KeyLinesOne(e: Entry, k: Key)
    ensures KeyLines([e], k) == Own(true, e, k)
  {
    hide Line;
    assert [e][1..] == [];
  }

  lemma EmptyOwn(k: Key)
    ensures Own(true, Empty, k) == []
  {
  }

  lemma KeyLinesNone(k: Key)
    ensures KeyLines([], k) == []
  {
  }

  lemma KeyLinesWhen(condition: bool, e: Entry, k: Key)
    ensures KeyLines(When(condition, e), k) == Own(condition, e, k)
  {
    hide Line, KeyLines;
    KeyLinesOne(e, k);
    KeyLinesNone(k);
  }

  predicate Only(es: seq<Entry>, n: Section) {
    forall i | 0 <= i < |es| :: es[i].Setting? ==> SectionOf(es[i].key) == n
  }

  lemma {:induction false} Foreign(es: seq<Entry>, n: Section, k: Key)
    requires Only(es, n) && SectionOf(k) != n
    ensures KeyLines(es, k) == []
  {
    hide Line;
    if es != [] {
      Foreign(es[1..], n, k);
    }
  }

  // ------------------------------------------------ the sections by their keys

  lemma HeadSetsNothing(c: InstanceConfig, k: Key)
    ensures KeyLines(HeadEntries(c), k) == []
  {
    var head := HeadEntries(c)[0];
    assert head.Comment? && HeadEntries(c) == [head] + [Empty];
    hide *;
    KeyLinesAppend([head], [Empty], k);
    KeyLinesOne(head, k);
    KeyLinesOne(Empty, k);
  }

  lemma BackendOnly(c: InstanceConfig)
    ensures Only(BackendEntries(c), Auth)
  {
  }

  lemma CaOnly(c: InstanceConfig)
    ensures Only(CaEntries(c), Auth)
    ensures Only([Empty, Put(ServerCert, c.serverCert), Put(ServerKey, c.serverKey)], Auth)
  {
  }

  lemma AuthOnly(c: InstanceConfig)
    ensures Only(AuthEntries(c), Auth)
  {
    hide BackendEntries, CaEntries, Only;
    BackendOnly(c);
    CaOnly(c);
    OnlyAppend(BackendEntries(c), CaEntries(c), Auth);
    OnlyAppend(BackendEntries(c) + CaEntries(c),
               [Empty, Put(ServerCert, c.serverCert), Put(ServerKey, c.serverKey)], Auth);
  }

  lemma PortOnly(c: InstanceConfig)
    ensures Only(PortEntries(c), Ports) && Only(SocketEntries(c), Files)
  {
    hide Numerals.ShowInt;
  }

  lemma CamouflageOnly(c: InstanceConfig)
    ensures Only(CamouflageEntries(c), Masks) && Only(LimitEntries(c), Limits)
  {
    hide Numerals.ShowInt, OrDefault;
  }

  lemma OnlyAppend(a: seq<Entry>, b: seq<Entry>, n: Section)
    requires Only(a, n) && Only(b, n)
    ensures Only(a + b, n)
  {
    hide SectionOf;
  }

  lemma EachOnly(key: Key, values: seq<string>)
    ensures Only(Each(key, values), SectionOf(key))
  {
    hide SectionOf;
  }

  lemma RoutesOnly(routes: seq<string>)
    ensures Only(RouteEntries(routes), Network)
  {
    hide Ordering.Canonical, Each, Only;
    EachOnly(Route, Ordering.Canonical(routes));
    TunnelOnly();
  }

  lemma TunnelOnly()
    ensures Only([Comment(FULL_TUNNEL)], Network)
  {
    hide FULL_TUNNEL;
  }

  lemma NetworkOnly(c: InstanceConfig, pool: Cidr.Split)
    ensures Only(NetworkEntries(c, pool), Network)
  {
    hide Each, RouteEntries, Only;
    var head := [Put(Ipv4Network, pool.network), Put(Ipv4Netmask, pool.netmask)];
    var v6 := When(c.poolCidrV6 != "", Put(Ipv6Network, c.poolCidrV6));
    var dns, routes := Each(Dns, c.dns), RouteEntries(c.routes);
    var domain := When(c.defaultDomain != "", Put(DefaultDomain, c.defaultDomain));
    FewOnly(c, pool);
    EachOnly(Dns, c.dns);
    RoutesOnly(c.routes);
    OnlyAppend(head, v6, Network);
    OnlyAppend(head + v6, dns, Network);
    OnlyAppend(head + v6 + dns, routes, Network);
    OnlyAppend(head + v6 + dns + routes, domain, Network);
    OnlyAppend(head + v6 + dns + routes + domain, [Empty], Network);
  }

  lemma FewOnly(c: InstanceConfig, pool: Cidr.Split)
    ensures Only([Put(Ipv4Network, pool.network), Put(Ipv4Netmask, pool.netmask)], Network)
    ensures Only(When(c.poolCidrV6 != "", Put(Ipv6Network, c.poolCidrV6)), Network)
    ensures Only(When(c.defaultDomain != "", Put(DefaultDomain, c.defaultDomain)), Network)
    ensures Only([Empty], Network)
  {
  }

  // All the entries of a file.
  function Entries(c: InstanceConfig, pool: Cidr.Split): seq<Entry> {
    EntriesBefore(c) + PortEntries(c) + EntriesAfter(c, pool)
  }

  lemma SevenSections(c: InstanceConfig, pool: Cidr.Split, k: Key)
    ensures KeyLines(Entries(c, pool), k)
         == KeyLines(HeadEntries(c), k) + KeyLines(AuthEntries(c), k) + KeyLines(PortEntries(c), k)
            + KeyLines(SocketEntries(c), k) + KeyLines(CamouflageEntries(c), k)
            + KeyLines(NetworkEntries(c, pool), k) + KeyLines(LimitEntries(c), k)
  {
    hide HeadEntries, AuthEntries, PortEntries, SocketEntries, CamouflageEntries, NetworkEntries, LimitEntries,
         KeyLines;
    var s, m, n, l := SocketEntries(c), CamouflageEntries(c), NetworkEntries(c, pool), LimitEntries(c);
    KeyLinesAppend(EntriesBefore(c) + PortEntries(c), EntriesAfter(c, pool), k);
    KeyLinesAppend(EntriesBefore(c), PortEntries(c), k);
    KeyLinesAppend(HeadEntries(c), AuthEntries(c), k);
    KeyLinesAppend(s + m + n, l, k);
    KeyLinesAppend(s + m, n, k);
    KeyLinesAppend(s, m, k);
  }

  function EntriesIn(c: InstanceConfig, pool: Cidr.Split, n: Section): seq<Entry> {
    match n
    case Auth => AuthEntries(c)
    case Ports => PortEntries(c)
    case Files => SocketEntries(c)
    case Masks => CamouflageEntries(c)
    case Network => NetworkEntries(c, pool)
    case Limits => LimitEntries(c)
  }

  lemma SectionOnly(c: InstanceConfig, pool: Cidr.Split, n: Section)
    ensures Only(EntriesIn(c, pool, n), n)
  {
    hide HeadEntries, AuthEntries, PortEntries, SocketEntries, CamouflageEntries, NetworkEntries, LimitEntries, Only;
    AuthOnly(c);
    PortOnly(c);
    CamouflageOnly(c);
    NetworkOnly(c, pool);
  }

  lemma NotHere(c: InstanceConfig, pool: Cidr.Split, n: Section, k: Key)
    ensures SectionOf(k) != n ==> KeyLines(EntriesIn(c, pool, n), k) == []
  {
    hide *;
    SectionOnly(c, pool, n);
    if SectionOf(k) != n {
      Foreign(EntriesIn(c, pool, n), n, k);
    }
  }

  // A key's lines all stand in its own section.
  lemma OwnSection(c: InstanceConfig, pool: Cidr.Split, k: Key)
    ensures KeyLines(Entries(c, pool), k) == KeyLines(EntriesIn(c, pool, SectionOf(k)), k)
  {
    hide HeadEntries, AuthEntries, PortEntries, SocketEntries, CamouflageEntries, NetworkEntries, LimitEntries,
         KeyLines, Entries, Only, SectionOf;
    SevenSections(c, pool, k);
    HeadSetsNothing(c, k);
    NotHere(c, pool, Auth, k);
    NotHere(c, pool, Ports, k);
    NotHere(c, pool, Files, k);
    NotHere(c, pool, Masks, k);
    NotHere(c, pool, Network, k);
    NotHere(c, pool, Limits, k);
  }

  // ------------------------------------------------ what each section sets

  lemma KeyLinesTwo(a: Entry, b: Entry, k: Key)
    ensures KeyLines([a, b], k) == KeyLines([a], k) + KeyLines([b], k)
  {
    hide KeyLines;
    assert [a, b] == [a] + [b];
    KeyLinesAppend([a], [b], k);
  }

  lemma KeyLinesThree(a: Entry, b: Entry, c: Entry, k: Key)
    ensures KeyLines([a, b, c], k) == KeyLines([a], k) + KeyLines([b], k) + KeyLines([c], k)
  {
    hide KeyLines;
    assert [a, b, c] == [a, b] + [c];
    KeyLinesAppend([a, b], [c], k);
    KeyLinesTwo(a, b, k);
  }

  lemma BackendLines(c: InstanceConfig, k: Key)
    ensures KeyLines(BackendEntries(c), k) ==
              if k == AuthKey then
                [Line(if c.authMode == Password then Setting(AuthKey, PasswdFile, c.ocpasswdFile)
                      else Setting(AuthKey, InQuotes, "certificate"))]
              else if k == EnableAuth && c.authMode == Both then [Line(Setting(EnableAuth, PasswdFile, c.ocpasswdFile))]
              else []
  {
    hide Line, KeyLines;
    var cert := Setting(AuthKey, InQuotes, "certificate");
    var plain := Setting(EnableAuth, PasswdFile, c.ocpasswdFile);
    KeyLinesOne(Setting(AuthKey, PasswdFile, c.ocpasswdFile), k);
    KeyLinesOne(cert, k);
    KeyLinesWhen(c.authMode.Both?, plain, k);
    KeyLinesAppend([cert], When(c.authMode.Both?, plain), k);
  }

  lemma CaLines(c: InstanceConfig, k: Key)
    ensures KeyLines(CaEntries(c), k) ==
              if !UsesCert(c.authMode) then []
              else if k == CaCert then [Line(Put(CaCert, c.caCert))]
              else if k == CertUserOid then [Line(Put(CertUserOid, "2.5.4.3"))]
              else if k == Crl && c.crlFile != "" then [Line(Put(Crl, c.crlFile))]
              else []
  {
    hide Line, KeyLines, UsesCert;
    KeyLinesNone(k);
    var a, b := Put(CaCert, c.caCert), Put(CertUserOid, "2.5.4.3");
    KeyLinesTwo(a, b, k);
    KeyLinesOne(a, k);
    KeyLinesOne(b, k);
    KeyLinesWhen(c.crlFile != "", Put(Crl, c.crlFile), k);
    KeyLinesAppend([a, b], When(c.crlFile != "", Put(Crl, c.crlFile)), k);
  }

  lemma AuthLines(c: InstanceConfig, k: Key)
    ensures KeyLines(AuthEntries(c), k)
         == KeyLines(BackendEntries(c), k) + KeyLines(CaEntries(c), k)
            + (if k == ServerCert then [Line(Put(ServerCert, c.serverCert))]
               else if k == ServerKey then [Line(Put(ServerKey, c.serverKey))] else [])
  {
    hide Line, KeyLines, BackendEntries, CaEntries;
    var a, b := Put(ServerCert, c.serverCert), Put(ServerKey, c.serverKey);
    KeyLinesThree(Empty, a, b, k);
    KeyLinesOne(Empty, k);
    KeyLinesOne(a, k);
    KeyLinesOne(b, k);
    KeyLinesAppend(BackendEntries(c), CaEntries(c), k);
    KeyLinesAppend(BackendEntries(c) + CaEntries(c), [Empty, a, b], k);
  }

  lemma PortLines(c: InstanceConfig, k: Key)
    ensures KeyLines(PortEntries(c), k)
         == Own(true, Put(TcpPort, Numerals.ShowInt(c.tcpPort)), k)
            + Own(c.udpPort > 0, Put(UdpPort, Numerals.ShowInt(c.udpPort)), k)
            + Own(c.localBind != "", Put(ListenHost, c.localBind), k)
            + Own(c.proxyProto, Put(ListenProxyProto, "true"), k)
  {
    hide Line, KeyLines, When, Own, Numerals.ShowInt;
    var tcp, udp := Put(TcpPort, Numerals.ShowInt(c.tcpPort)), Put(UdpPort, Numerals.ShowInt(c.udpPort));
    var host, proxy := Put(ListenHost, c.localBind), Put(ListenProxyProto, "true");
    var x, y, z := When(c.udpPort > 0, udp), When(c.localBind != "", host), When(c.proxyProto, proxy);
    KeyLinesOne(tcp, k);
    KeyLinesWhen(c.udpPort > 0, udp, k);
    KeyLinesWhen(c.localBind != "", host, k);
    KeyLinesWhen(c.proxyProto, proxy, k);
    KeyLinesAppend([tcp], x, k);
    KeyLinesAppend([tcp] + x, y, k);
    KeyLinesAppend([tcp] + x + y, z, k);
  }

  lemma SocketLines(c: InstanceConfig, k: Key)
    ensures KeyLines(SocketEntries(c), k)
         == Own(true, Put(SocketFile, c.runSocket), k) + Own(true, Put(OcctlSocketFile, c.occtlSocket), k)
            + Own(true, Put(UseOcctl, "true"), k) + Own(true, Put(Device, c.device), k)
            + Own(c.configPerUserDir != "", Put(ConfigPerUser, c.configPerUserDir), k)
  {
    hide Line, KeyLines, When, Own;
    var a, b := Put(SocketFile, c.runSocket), Put(OcctlSocketFile, c.occtlSocket);
    var x, y := Put(UseOcctl, "true"), Put(Device, c.device);
    var z := When(c.configPerUserDir != "", Put(ConfigPerUser, c.configPerUserDir));
    KeyLinesTwo(a, b, k);
    KeyLinesTwo(x, y, k);
    KeyLinesOne(a, k);
    KeyLinesOne(b, k);
    KeyLinesOne(x, k);
    KeyLinesOne(y, k);
    EmptyOwn(k);
    KeyLinesOne(Empty, k);
    KeyLinesWhen(c.configPerUserDir != "", Put(ConfigPerUser, c.configPerUserDir), k);
    assert [a, b, x, y] == [a, b] + [x, y];
    KeyLinesAppend([a, b], [x, y], k);
    KeyLinesAppend([a, b, x, y], z, k);
    KeyLinesAppend([a, b, x, y] + z, [Empty], k);
  }

  lemma CamouflageLines(c: InstanceConfig, k: Key)
    ensures KeyLines(CamouflageEntries(c), k) ==
              if !c.camouflage.enabled then []
              else if k == CamouflageOn then [Line(Put(CamouflageOn, "true"))]
              else if k == CamouflageSecret then [Line(Setting(CamouflageSecret, InQuotes, c.camouflage.secret))]
              else if k == CamouflageRealm && c.camouflage.realm != "" then
                [Line(Setting(CamouflageRealm, InQuotes, c.camouflage.realm))]
              else []
  {
    hide Line, KeyLines, When;
    KeyLinesNone(k);
    var on, secret := Put(CamouflageOn, "true"), Setting(CamouflageSecret, InQuotes, c.camouflage.secret);
    var realm := Setting(CamouflageRealm, InQuotes, c.camouflage.realm);
    KeyLinesTwo(on, secret, k);
    KeyLinesOne(on, k);
    KeyLinesOne(secret, k);
    KeyLinesOne(Empty, k);
    KeyLinesWhen(c.camouflage.realm != "", realm, k);
    KeyLinesAppend([on, secret], When(c.camouflage.realm != "", realm), k);
    KeyLinesAppend([on, secret] + When(c.camouflage.realm != "", realm), [Empty], k);
  }

  // One line for each value.
  function KeyValueLines(k: Key, values: seq<string>): (lines: Lines)
    ensures |lines| == |values| && forall i | 0 <= i < |values| :: lines[i] == Line(Put(k, values[i]))
  {
    if values == [] then [] else [Line(Put(k, values[0]))] + KeyValueLines(k, values[1..])
  }

  lemma {:induction false} EachLines(key: Key, values: seq<string>, k: Key)
    ensures KeyLines(Each(key, values), k) == if k == key then KeyValueLines(key, values) else []
  {
    hide Line;
    if values != [] {
      assert Each(key, values)[1..] == Each(key, values[1..]);
      EachLines(key, values[1..], k);
    }
  }

  lemma RouteLines(routes: seq<string>, k: Key)
    ensures KeyLines(RouteEntries(routes), k)
         == if k == Route && routes != [] then KeyValueLines(Route, Ordering.Canonical(routes)) else []
  {
    hide Line, KeyLines, Each, Ordering.Canonical, FULL_TUNNEL, KeyValueLines;
    EachLines(Route, Ordering.Canonical(routes), k);
    KeyLinesOne(Comment(FULL_TUNNEL), k);
  }

  lemma NetworkLines(c: InstanceConfig, pool: Cidr.Split, k: Key)
    ensures KeyLines(NetworkEntries(c, pool), k)
         == Own(true, Put(Ipv4Network, pool.network), k) + Own(true, Put(Ipv4Netmask, pool.netmask), k)
            + Own(c.poolCidrV6 != "", Put(Ipv6Network, c.poolCidrV6), k)
            + (if k == Dns then KeyValueLines(Dns, c.dns) else [])
            + (if k == Route && c.routes != [] then KeyValueLines(Route, Ordering.Canonical(c.routes)) else [])
            + Own(c.defaultDomain != "", Put(DefaultDomain, c.defaultDomain), k)
  {
    hide Line, KeyLines, When, Own, Each, RouteEntries, Ordering.Canonical, KeyValueLines;
    var a, b := Put(Ipv4Network, pool.network), Put(Ipv4Netmask, pool.netmask);
    var v6 := When(c.poolCidrV6 != "", Put(Ipv6Network, c.poolCidrV6));
    var dns, routes := Each(Dns, c.dns), RouteEntries(c.routes);
    var domain := When(c.defaultDomain != "", Put(DefaultDomain, c.defaultDomain));
    KeyLinesTwo(a, b, k);
    KeyLinesOne(a, k);
    KeyLinesOne(b, k);
    EmptyOwn(k);
    KeyLinesOne(Empty, k);
    KeyLinesWhen(c.poolCidrV6 != "", Put(Ipv6Network, c.poolCidrV6), k);
    KeyLinesWhen(c.defaultDomain != "", Put(DefaultDomain, c.defaultDomain), k);
    EachLines(Dns, c.dns, k);
    RouteLines(c.routes, k);
    KeyLinesAppend([a, b], v6, k);
    KeyLinesAppend([a, b] + v6, dns, k);
    KeyLinesAppend([a, b] + v6 + dns, routes, k);
    KeyLinesAppend([a, b] + v6 + dns + routes, domain, k);
    KeyLinesAppend([a, b] + v6 + dns + routes + domain, [Empty], k);
  }

  lemma LimitLines(c: InstanceConfig, k: Key)
    ensures KeyLines(LimitEntries(c), k)
         == Own(true, Put(MaxClients, Numerals.ShowInt(OrDefault(c.maxClients, 1024))), k)
            + Own(true, Put(MaxSameClients, Numerals.ShowInt(OrDefault(c.maxSameClients, 2))), k)
            + Own(true, Put(TryMtuDiscovery, "true"), k) + Own(true, Put(CiscoClientCompat, "true"), k)
            + Own(true, Put(DtlsLegacy, "true"), k)
  {
    hide Line, KeyLines, Own, Numerals.ShowInt, OrDefault;
    var a := Put(MaxClients, Numerals.ShowInt(OrDefault(c.maxClients, 1024)));
    var b := Put(MaxSameClients, Numerals.ShowInt(OrDefault(c.maxSameClients, 2)));
    var x, y, z := Put(TryMtuDiscovery, "true"), Put(CiscoClientCompat, "true"), Put(DtlsLegacy, "true");
    KeyLinesTwo(a, b, k);
    KeyLinesThree(x, y, z, k);
    KeyLinesOne(a, k);
    KeyLinesOne(b, k);
    KeyLinesOne(x, k);
    KeyLinesOne(y, k);
    KeyLinesOne(z, k);
    assert [a, b, x, y, z] == [a, b] + [x, y, z];
    KeyLinesAppend([a, b], [x, y, z], k);
  }

  // ------------------------------------------------ files without hidden lines

  predicate Flat(e: Entry) {
    match e
    case Empty => true
    case Comment(text) => Text.NL !in text
    case Setting(_, _, value) => Text.NL !in value
  }

  predicate AllFlat(es: seq<Entry>) {
    forall i | 0 <= i < |es| :: Flat(es[i])
  }

  lemma FlatLine(e: Entry)
    requires Flat(e)
    ensures Text.NL !in Line(e)
  {
    hide KeyText, Opening, Closing;
    match e
    case Setting(key, wrap, value) =>
      KeyTextGood(key);
      WrapsOneLine(wrap);
    case _ =>
  }

  lemma FlatLines(es: seq<Entry>)
    requires AllFlat(es)
    ensures AllOneLine(es)
  {
    hide Line, Flat;
    forall i | 0 <= i < |es| ensures Text.NL !in Line(es[i]) {
      FlatLine(es[i]);
    }
  }

  lemma FlatAppend(a: seq<Entry>, b: seq<Entry>)
    requires AllFlat(a) && AllFlat(b)
    ensures AllFlat(a + b)
  {
    hide Flat;
  }

  predicate AllPlain(values: seq<string>) {
    forall i | 0 <= i < |values| :: Text.NL !in values[i]
  }

  // No printed value of the config holds a newline.
  predicate FlatConfig(c: InstanceConfig) {
    && Text.NL !in c.serverCert && Text.NL !in c.serverKey && Text.NL !in c.caCert && Text.NL !in c.crlFile
    && Text.NL !in c.ocpasswdFile && Text.NL !in c.localBind
    && Text.NL !in c.runSocket && Text.NL !in c.occtlSocket && Text.NL !in c.device && Text.NL !in c.configPerUserDir
    && (c.camouflage.enabled ==> Text.NL !in c.camouflage.secret && Text.NL !in c.camouflage.realm)
    && Text.NL !in c.poolCidrV6 && Text.NL !in c.defaultDomain
    && AllPlain(c.dns) && AllPlain(c.routes)
  }

  lemma HeadFlat(c: InstanceConfig)
    ensures AllFlat(HeadEntries(c))
  {
    QuoteOneLine(c.name);
    hide QuoteBody;
    assert Text.NL !in "Generated by openconnectd for instance " && Text.NL !in ". Do not edit by hand.";
  }

  lemma AuthFlat(c: InstanceConfig)
    requires FlatConfig(c)
    ensures AllFlat(AuthEntries(c))
  {
    hide AllPlain, UsesCert;
    assert Text.NL !in "certificate" && Text.NL !in "2.5.4.3";
    assert AllFlat(BackendEntries(c)) && AllFlat(CaEntries(c));
  }

  lemma PortFlat(c: InstanceConfig)
    requires FlatConfig(c)
    ensures AllFlat(PortEntries(c)) && AllFlat(SocketEntries(c))
  {
    hide AllPlain, Numerals.ShowInt;
    NumberOneLine(c.tcpPort);
    NumberOneLine(c.udpPort);
    assert Text.NL !in "true";
  }

  lemma LimitFlat(c: InstanceConfig)
    requires FlatConfig(c)
    ensures AllFlat(CamouflageEntries(c)) && AllFlat(LimitEntries(c))
  {
    hide AllPlain, Numerals.ShowInt, OrDefault;
    NumberOneLine(OrDefault(c.maxClients, 1024));
    NumberOneLine(OrDefault(c.maxSameClients, 2));
    assert Text.NL !in "true";
  }

  lemma EachFlat(key: Key, values: seq<string>)
    requires AllPlain(values)
    ensures AllFlat(Each(key, values))
  {
  }

  lemma RoutesFlat(routes: seq<string>)
    requires AllPlain(routes)
    ensures AllFlat(RouteEntries(routes))
  {
    hide Ordering.Canonical, Each, Ordering.Elements, AllFlat;
    if routes == [] {
      TunnelFlat();
    } else {
      var sorted := Ordering.Canonical(routes);
      SortedPlain(routes);
      EachFlat(Route, sorted);
    }
  }

  lemma SortedPlain(routes: seq<string>)
    requires AllPlain(routes)
    ensures AllPlain(Ordering.Canonical(routes))
  {
    hide Ordering.Canonical;
    var sorted := Ordering.Canonical(routes);
    assert Ordering.Elements(sorted) == Ordering.Elements(routes);
    forall i | 0 <= i < |sorted| ensures Text.NL !in sorted[i] {
      assert sorted[i] in Ordering.Elements(routes);
    }
  }

  lemma TunnelFlat()
    ensures AllFlat([Comment(FULL_TUNNEL)])
  {
    assert Text.NL !in "full tunnel: no explicit route ";
    assert Text.NL !in "\U{21D2} default route pushed";
  }

  lemma NetworkFlat(c: InstanceConfig, pool: Cidr.Split)
    requires FlatConfig(c) && Cidr.SplitCidr(c.poolCidr) == Some(pool)
    ensures AllFlat(NetworkEntries(c, pool))
  {
    hide Each, RouteEntries, AllFlat, Cidr.SplitCidr, AllPlain;
    var head := [Put(Ipv4Network, pool.network), Put(Ipv4Netmask, pool.netmask)];
    var v6 := When(c.poolCidrV6 != "", Put(Ipv6Network, c.poolCidrV6));
    var dns, routes := Each(Dns, c.dns), RouteEntries(c.routes);
    var domain := When(c.defaultDomain != "", Put(DefaultDomain, c.defaultDomain));
    PoolOneLine(c.poolCidr, pool);
    FewFlat(c, pool);
    EachFlat(Dns, c.dns);
    RoutesFlat(c.routes);
    FlatAppend(head, v6);
    FlatAppend(head + v6, dns);
    FlatAppend(head + v6 + dns, routes);
    FlatAppend(head + v6 + dns + routes, domain);
    FlatAppend(head + v6 + dns + routes + domain, [Empty]);
  }

  lemma FewFlat(c: InstanceConfig, pool: Cidr.Split)
    requires Text.NL !in pool.network && Text.NL !in pool.netmask
    requires Text.NL !in c.poolCidrV6 && Text.NL !in c.defaultDomain
    ensures AllFlat([Put(Ipv4Network, pool.network), Put(Ipv4Netmask, pool.netmask)])
    ensures AllFlat(When(c.poolCidrV6 != "", Put(Ipv6Network, c.poolCidrV6)))
    ensures AllFlat(When(c.defaultDomain != "", Put(DefaultDomain, c.defaultDomain)))
    ensures AllFlat([Empty])
  {
  }

  lemma FileFlat(c: InstanceConfig, pool: Cidr.Split)
    requires FlatConfig(c) && Cidr.SplitCidr(c.poolCidr) == Some(pool)
    ensures AllOneLine(Entries(c, pool))
  {
    hide *;
    HeadFlat(c);
    AuthFlat(c);
    PortFlat(c);
    LimitFlat(c);
    NetworkFlat(c, pool);
    var s, m, n, l := SocketEntries(c), CamouflageEntries(c), NetworkEntries(c, pool), LimitEntries(c);
    FlatAppend(HeadEntries(c), AuthEntries(c));
    FlatAppend(s, m);
    FlatAppend(s + m, n);
    FlatAppend(s + m + n, l);
    SectionsOf(c, pool);
    FlatAppend(EntriesBefore(c), PortEntries(c));
    FlatAppend(EntriesBefore(c) + PortEntries(c), EntriesAfter(c, pool));
    EntriesAre(c, pool);
    FlatLines(Entries(c, pool));
  }

  lemma EntriesAre(c: InstanceConfig, pool: Cidr.Split)
    ensures Entries(c, pool) == EntriesBefore(c) + PortEntries(c) + EntriesAfter(c, pool)
  {
    hide EntriesBefore, PortEntries, EntriesAfter;
  }

  // Reading a rendered file back, key by key.
  lemma RenderedFound(c: InstanceConfig, k: Key)
    requires Render(c).Some? && FlatConfig(c)
    ensures Cidr.SplitCidr(c.poolCidr).Some?
    ensures Find(Render(c).value, KeyText(k))
         == KeyLines(EntriesIn(c, Cidr.SplitCidr(c.poolCidr).value, SectionOf(k)), k)
  {
    hide *;
    RenderedIs(c);
    var pool := Cidr.SplitCidr(c.poolCidr).value;
    FileFlat(c, pool);
    PrintedFound(Entries(c, pool), k);
    OwnSection(c, pool, k);
  }

  lemma RenderedIs(c: InstanceConfig)
    requires Render(c).Some?
    ensures Cidr.SplitCidr(c.poolCidr).Some?
    ensures Render(c).value == Print(Entries(c, Cidr.SplitCidr(c.poolCidr).value))
  {
    hide Print, EntriesBefore, PortEntries, EntriesAfter, Cidr.SplitCidr;
  }

  // ------------------------------------------------ records

  // No text of the record that the file prints holds a newline.
  predicate FlatRecord(rec: Instance) {
    && Text.NL !in rec.name && Text.NL !in rec.localBind && Text.NL !in rec.publicEndpoint
    && Text.NL !in rec.poolCidrV6
    && (rec.camouflage.enabled ==> Text.NL !in rec.camouflage.secret && Text.NL !in rec.camouflage.realm)
    && AllPlain(rec.dns) && AllPlain(rec.routes)
  }

  lemma HostFlat(endpoint: string)
    requires Text.NL !in endpoint
    ensures Text.NL !in HostOnly(endpoint)
  {
    hide HostOnly;
    HostOtherwise(endpoint);
    var host := HostOnly(endpoint);
    if port :| endpoint == host + ":" + port {
    } else if port :| endpoint == "[" + host + "]:" + port {
      forall c | c in host ensures c in endpoint {
      }
    }
  }

  lemma PathFlat(dir: string, file: string)
    requires Text.NL !in dir && Text.NL !in file
    ensures Text.NL !in Paths.Join(dir, file)
  {
    hide Paths.Join;
    Paths.JoinWithout(dir, file, Text.NL);
  }

  lemma PkiPathFlat(d: Dirs, name: string, file: string)
    requires OneLineDirs(d) && Text.NL !in name && Text.NL !in file
    ensures Text.NL !in PkiPath(d, name, file)
  {
    hide Paths.Join;
    PathFlat(d.pkiDir, name);
    PathFlat(Paths.Join(d.pkiDir, name), file);
  }

  lemma RecordFlat(d: Dirs, rec: Instance)
    requires OneLineDirs(d) && FlatRecord(rec)
    ensures FlatConfig(ConfigOf(d, rec))
  {
    hide Paths.Join, PkiPath, HostOnly, ListenPort, UsesCert, UsesPassword, AllPlain;
    SuffixOneLine(rec.name);
    PkiPathFlat(d, rec.name, "server.pem");
    PkiPathFlat(d, rec.name, "server.key");
    PkiPathFlat(d, rec.name, "ca.pem");
    PkiPathFlat(d, rec.name, "crl.pem");
    PathFlat(d.stateDir, rec.name + ".ocpasswd");
    PathFlat(d.stateDir, rec.name + ".per-user");
    PathFlat(d.runDir, rec.name + ".occtl");
    PathFlat(d.runDir, rec.name + ".sock");
    HostFlat(rec.publicEndpoint);
  }

  // ------------------------------------------------ literal lines

  // The name of a key, and how its lines begin.
  predicate Named(k: Key, name: string, start: string) {
    KeyText(k) == name && KeyText(k) + " = " == start
  }

  lemma AuthNames()
    ensures Named(AuthKey, "auth", "auth = ")
    ensures Named(EnableAuth, "enable-auth", "enable-auth = ")
    ensures Named(CaCert, "ca-cert", "ca-cert = ")
  {
  }

  lemma CrlNames()
    ensures Named(CertUserOid, "cert-user-oid", "cert-user-oid = ")
    ensures Named(Crl, "crl", "crl = ")
  {
  }

  lemma ServerNames()
    ensures Named(ServerCert, "server-cert", "server-cert = ")
    ensures Named(ServerKey, "server-key", "server-key = ")
  {
  }

  lemma PortNames()
    ensures Named(TcpPort, "tcp-port", "tcp-port = ")
    ensures Named(UdpPort, "udp-port", "udp-port = ")
  {
  }

  lemma ListenNames()
    ensures Named(ListenHost, "listen-host", "listen-host = ")
    ensures Named(ListenProxyProto, "listen-proxy-proto", "listen-proxy-proto = ")
  {
  }

  lemma SocketNames()
    ensures Named(SocketFile, "socket-file", "socket-file = ")
    ensures Named(OcctlSocketFile, "occtl-socket-file", "occtl-socket-file = ")
  {
  }

  lemma DeviceNames()
    ensures Named(UseOcctl, "use-occtl", "use-occtl = ")
    ensures Named(Device, "device", "device = ")
    ensures Named(ConfigPerUser, "config-per-user", "config-per-user = ")
  {
  }

  lemma CamouflageNames()
    ensures Named(CamouflageOn, "camouflage", "camouflage = ")
    ensures Named(CamouflageSecret, "camouflage_secret", "camouflage_secret = ")
    ensures Named(CamouflageRealm, "camouflage_realm", "camouflage_realm = ")
  {
  }

  lemma MaskNames()
    ensures Named(Ipv4Network, "ipv4-network", "ipv4-network = ")
    ensures Named(Ipv4Netmask, "ipv4-netmask", "ipv4-netmask = ")
    ensures Named(Ipv6Network, "ipv6-network", "ipv6-network = ")
  {
  }

  lemma RouteNames()
    ensures Named(Dns, "dns", "dns = ")
    ensures Named(Route, "route", "route = ")
    ensures Named(DefaultDomain, "default-domain", "default-domain = ")
  {
  }

  lemma LimitNames()
    ensures Named(MaxClients, "max-clients", "max-clients = ")
    ensures Named(MaxSameClients, "max-same-clients", "max-same-clients = ")
  {
  }

  lemma CompatNames()
    ensures Named(TryMtuDiscovery, "try-mtu-discovery", "try-mtu-discovery = ")
    ensures Named(CiscoClientCompat, "cisco-client-compat", "cisco-client-compat = ")
  {
  }

  lemma DtlsNames()
    ensures Named(DtlsLegacy, "dtls-legacy", "dtls-legacy = ")
  {
  }

  lemma NamedLine(k: Key, w: Wrap, value: string, name: string, start: string)
    requires Named(k, name, start)
    ensures Line(Setting(k, w, value)) == start + (Opening(w) + value + Closing(w))
  {
    hide KeyText, Opening, Closing;
  }

  lemma BareLine(k: Key, value: string, name: string, start: string)
    requires Named(k, name, start)
    ensures Line(Put(k, value)) == start + value
  {
    hide Line, Named;
    NamedLine(k, Bare, value, name, start);
    assert "" + value + "" == value;
  }

  // The lines a key has, when they are at most one.
  lemma FoundNamed(c: InstanceConfig, k: Key, name: string, start: string)
    requires Render(c).Some? && FlatConfig(c) && Named(k, name, start)
    ensures Cidr.SplitCidr(c.poolCidr).Some?
    ensures Find(Render(c).value, name)
         == KeyLines(EntriesIn(c, Cidr.SplitCidr(c.poolCidr).value, SectionOf(k)), k)
  {
    hide Render, FlatConfig, Find, KeyLines, EntriesIn, SectionOf, Cidr.SplitCidr, KeyText;
    RenderedFound(c, k);
  }

  function Optional(condition: bool, line: string): Lines {
    if condition then [line] else []
  }

  function Starting(start: string, values: seq<string>): (lines: Lines)
    ensures |lines| == |values| && forall i | 0 <= i < |values| :: lines[i] == start + values[i]
  {
    if values == [] then [] else [start + values[0]] + Starting(start, values[1..])
  }

  lemma ValueLines(k: Key, values: seq<string>, name: string, start: string)
    requires Named(k, name, start)
    ensures KeyValueLines(k, values) == Starting(start, values)
  {
    hide Line, Named, Put;
    forall i | 0 <= i < |values| ensures KeyValueLines(k, values)[i] == start + values[i] {
      BareLine(k, values[i], name, start);
    }
  }

  // ------------------------------------------------ reading a file back

  // The setting of one key, for a config: the lines of its section.
  lemma AuthFound(c: InstanceConfig)
    requires Render(c).Some? && FlatConfig(c)
    ensures var text, certs := Render(c).value, c.authMode == Cert || c.authMode == Both;
            && Find(text, "auth") ==
                 [if c.authMode == Password then "auth = \"plain[passwd=" + c.ocpasswdFile + "]\""
                  else "auth = \"certificate\""]
            && Find(text, "enable-auth") ==
                 Optional(c.authMode == Both, "enable-auth = \"plain[passwd=" + c.ocpasswdFile + "]\"")
            && Find(text, "ca-cert") == Optional(certs, "ca-cert = " + c.caCert)
  {
    hide Render, FlatConfig, Find, KeyLines, Line, Named, BackendEntries, CaEntries, AuthEntries, Cidr.SplitCidr;
    AuthNames();
    FoundNamed(c, AuthKey, "auth", "auth = ");
    FoundNamed(c, EnableAuth, "enable-auth", "enable-auth = ");
    FoundNamed(c, CaCert, "ca-cert", "ca-cert = ");
    AuthLines(c, AuthKey);
    AuthLines(c, EnableAuth);
    AuthLines(c, CaCert);
    BackendLines(c, AuthKey);
    BackendLines(c, EnableAuth);
    BackendLines(c, CaCert);
    CaLines(c, AuthKey);
    CaLines(c, EnableAuth);
    CaLines(c, CaCert);
    NamedLine(AuthKey, PasswdFile, c.ocpasswdFile, "auth", "auth = ");
    NamedLine(AuthKey, InQuotes, "certificate", "auth", "auth = ");
    NamedLine(EnableAuth, PasswdFile, c.ocpasswdFile, "enable-auth", "enable-auth = ");
    BareLine(CaCert, c.caCert, "ca-cert", "ca-cert = ");
    AuthLiterals(c.ocpasswdFile);
    EnableLiterals(c.ocpasswdFile);
  }

  lemma AuthLiterals(file: string)
    ensures "auth = " + (Opening(PasswdFile) + file + Closing(PasswdFile)) == "auth = \"plain[passwd=" + file + "]\""
    ensures "auth = " + (Opening(InQuotes) + "certificate" + Closing(InQuotes)) == "auth = \"certificate\""
  {
    assert "auth = " + "\"plain[passwd=" == "auth = \"plain[passwd=";
  }

  lemma EnableLiterals(file: string)
    ensures "enable-auth = " + (Opening(PasswdFile) + file + Closing(PasswdFile))
         == "enable-auth = \"plain[passwd=" + file + "]\""
  {
    assert "enable-auth = " + "\"plain[passwd=" == "enable-auth = \"plain[passwd=";
  }

  lemma CrlFound(c: InstanceConfig)
    requires Render(c).Some? && FlatConfig(c) && (UsesCert(c.authMode) ==> c.crlFile != "")
    ensures var text, certs := Render(c).value, c.authMode == Cert || c.authMode == Both;
            && Find(text, "cert-user-oid") == Optional(certs, "cert-user-oid = 2.5.4.3")
            && Find(text, "crl") == Optional(certs, "crl = " + c.crlFile)
            && Find(text, "server-cert") == ["server-cert = " + c.serverCert]
            && Find(text, "server-key") == ["server-key = " + c.serverKey]
  {
    hide Render, FlatConfig, Find, KeyLines, Line, Named, BackendEntries, CaEntries, AuthEntries, Cidr.SplitCidr;
    CrlNames();
    ServerNames();
    FoundNamed(c, CertUserOid, "cert-user-oid", "cert-user-oid = ");
    FoundNamed(c, Crl, "crl", "crl = ");
    FoundNamed(c, ServerCert, "server-cert", "server-cert = ");
    FoundNamed(c, ServerKey, "server-key", "server-key = ");
    AuthLines(c, CertUserOid);
    AuthLines(c, Crl);
    AuthLines(c, ServerCert);
    AuthLines(c, ServerKey);
    BackendLines(c, CertUserOid);
    BackendLines(c, Crl);
    BackendLines(c, ServerCert);
    BackendLines(c, ServerKey);
    CaLines(c, CertUserOid);
    CaLines(c, Crl);
    CaLines(c, ServerCert);
    CaLines(c, ServerKey);
    BareLine(CertUserOid, "2.5.4.3", "cert-user-oid", "cert-user-oid = ");
    BareLine(Crl, c.crlFile, "crl", "crl = ");
    BareLine(ServerCert, c.serverCert, "server-cert", "server-cert = ");
    BareLine(ServerKey, c.serverKey, "server-key", "server-key = ");
    assert "cert-user-oid = " + "2.5.4.3" == "cert-user-oid = 2.5.4.3";
  }

  /** What a rendered file says about authentication: the back ends, the CA with its CRL, and the server certificate. */
  lemma AuthReadBack(d: Dirs, rec: Instance)
    requires RenderRecord(d, rec).Some? && OneLineDirs(d) && FlatRecord(rec)
    ensures var text := RenderRecord(d, rec).value;
            var pki := Paths.Join(d.pkiDir, rec.name);
            var passwords := Paths.Join(d.stateDir, rec.name + ".ocpasswd");
            var certs := rec.authMode == Cert || rec.authMode == Both;
            && Find(text, "auth") ==
                 [if rec.authMode == Password then "auth = \"plain[passwd=" + passwords + "]\""
                  else "auth = \"certificate\""]
            && Find(text, "enable-auth") ==
                 Optional(rec.authMode == Both, "enable-auth = \"plain[passwd=" + passwords + "]\"")
            && Find(text, "ca-cert") == Optional(certs, "ca-cert = " + Paths.Join(pki, "ca.pem"))
            && Find(text, "cert-user-oid") == Optional(certs, "cert-user-oid = 2.5.4.3")
            && Find(text, "crl") == Optional(certs, "crl = " + Paths.Join(pki, "crl.pem"))
            && Find(text, "server-cert") == ["server-cert = " + Paths.Join(pki, "server.pem")]
            && Find(text, "server-key") == ["server-key = " + Paths.Join(pki, "server.key")]
  {
    hide Render, FlatConfig, FlatRecord, Find, Paths.Join, Paths.PerUserDir, HostOnly, ListenPort, TunName;
    RecordFlat(d, rec);
    Paths.JoinNonEmpty(Paths.Join(d.pkiDir, rec.name), "crl.pem");
    AuthFound(ConfigOf(d, rec));
    CrlFound(ConfigOf(d, rec));
  }

  lemma ListenersFound(c: InstanceConfig)
    requires Render(c).Some? && FlatConfig(c)
    ensures var text := Render(c).value;
            && Find(text, "tcp-port") == ["tcp-port = " + Numerals.ShowInt(c.tcpPort)]
            && Find(text, "udp-port") == Optional(c.udpPort > 0, "udp-port = " + Numerals.ShowInt(c.udpPort))
            && Find(text, "listen-host") == Optional(c.localBind != "", "listen-host = " + c.localBind)
            && Find(text, "listen-proxy-proto") == Optional(c.proxyProto, "listen-proxy-proto = true")
  {
    hide Render, FlatConfig, Find, KeyLines, Line, Named, PortEntries, Cidr.SplitCidr, Numerals.ShowInt;
    PortNames();
    ListenNames();
    FoundNamed(c, TcpPort, "tcp-port", "tcp-port = ");
    FoundNamed(c, UdpPort, "udp-port", "udp-port = ");
    FoundNamed(c, ListenHost, "listen-host", "listen-host = ");
    FoundNamed(c, ListenProxyProto, "listen-proxy-proto", "listen-proxy-proto = ");
    PortLines(c, TcpPort);
    PortLines(c, UdpPort);
    PortLines(c, ListenHost);
    PortLines(c, ListenProxyProto);
    BareLine(TcpPort, Numerals.ShowInt(c.tcpPort), "tcp-port", "tcp-port = ");
    BareLine(UdpPort, Numerals.ShowInt(c.udpPort), "udp-port", "udp-port = ");
    BareLine(ListenHost, c.localBind, "listen-host", "listen-host = ");
    BareLine(ListenProxyProto, "true", "listen-proxy-proto", "listen-proxy-proto = ");
    assert "listen-proxy-proto = " + "true" == "listen-proxy-proto = true";
  }

  /** What it says about listeners: the ports the record asks for, the local address and the proxy protocol. */
  lemma ListenersReadBack(d: Dirs, rec: Instance, p: int)
    requires RenderRecord(d, rec).Some? && OneLineDirs(d) && FlatRecord(rec) && PortOf(rec.listen, p)
    ensures var text := RenderRecord(d, rec).value;
            && Find(text, "tcp-port") == ["tcp-port = " + Numerals.ShowInt(if rec.tcpPort > 0 then rec.tcpPort else p)]
            && Find(text, "udp-port") == Optional(rec.dtls, "udp-port = " + Numerals.ShowInt(p))
            && Find(text, "listen-host") == Optional(rec.localBind != "", "listen-host = " + rec.localBind)
            && Find(text, "listen-proxy-proto") == Optional(rec.proxyProto, "listen-proxy-proto = true")
  {
    hide Render, FlatConfig, FlatRecord, Find, Paths.Join, Paths.PerUserDir, HostOnly, ListenPort, TunName, PkiPath,
         PortOf, Numerals.ShowInt;
    RecordFlat(d, rec);
    RecordPort(rec, p);
    PortOfPositive(rec.listen, p);
    ListenersFound(ConfigOf(d, rec));
  }

  lemma SocketsFound(c: InstanceConfig)
    requires Render(c).Some? && FlatConfig(c)
    ensures var text := Render(c).value;
            && Find(text, "socket-file") == ["socket-file = " + c.runSocket]
            && Find(text, "occtl-socket-file") == ["occtl-socket-file = " + c.occtlSocket]
  {
    hide Render, FlatConfig, Find, KeyLines, Line, Named, SocketEntries, Cidr.SplitCidr;
    SocketNames();
    FoundNamed(c, SocketFile, "socket-file", "socket-file = ");
    FoundNamed(c, OcctlSocketFile, "occtl-socket-file", "occtl-socket-file = ");
    SocketLines(c, SocketFile);
    SocketLines(c, OcctlSocketFile);
    BareLine(SocketFile, c.runSocket, "socket-file", "socket-file = ");
    BareLine(OcctlSocketFile, c.occtlSocket, "occtl-socket-file", "occtl-socket-file = ");
  }

  lemma DeviceFound(c: InstanceConfig)
    requires Render(c).Some? && FlatConfig(c)
    ensures var text := Render(c).value;
            && Find(text, "use-occtl") == ["use-occtl = true"]
            && Find(text, "device") == ["device = " + c.device]
            && Find(text, "config-per-user") ==
                 Optional(c.configPerUserDir != "", "config-per-user = " + c.configPerUserDir)
  {
    hide Render, FlatConfig, Find, KeyLines, Line, Named, SocketEntries, Cidr.SplitCidr;
    DeviceNames();
    FoundNamed(c, UseOcctl, "use-occtl", "use-occtl = ");
    FoundNamed(c, Device, "device", "device = ");
    FoundNamed(c, ConfigPerUser, "config-per-user", "config-per-user = ");
    SocketLines(c, UseOcctl);
    SocketLines(c, Device);
    SocketLines(c, ConfigPerUser);
    BareLine(UseOcctl, "true", "use-occtl", "use-occtl = ");
    BareLine(Device, c.device, "device", "device = ");
    BareLine(ConfigPerUser, c.configPerUserDir, "config-per-user", "config-per-user = ");
    assert "use-occtl = " + "true" == "use-occtl = true";
  }

  /** About sockets: the two control sockets, a device name of at most 15 characters, and the directory of the pins. */
  lemma SocketsReadBack(d: Dirs, rec: Instance)
    requires RenderRecord(d, rec).Some? && OneLineDirs(d) && FlatRecord(rec)
    ensures var text := RenderRecord(d, rec).value;
            && Find(text, "socket-file") == ["socket-file = " + Paths.Join(d.runDir, rec.name + ".sock")]
            && Find(text, "occtl-socket-file") == ["occtl-socket-file = " + Paths.Join(d.runDir, rec.name + ".occtl")]
            && Find(text, "use-occtl") == ["use-occtl = true"]
            && Find(text, "device") ==
                 ["device = " + ("oc-" + (if |rec.name| > 12 then rec.name[..12] else rec.name))]
            && Find(text, "config-per-user") ==
                 ["config-per-user = " + Paths.Join(d.stateDir, rec.name + ".per-user")]
  {
    hide Render, FlatConfig, FlatRecord, Find, Paths.Join, HostOnly, ListenPort, TunName, PkiPath;
    RecordFlat(d, rec);
    DeviceIs(rec.name);
    Paths.JoinNonEmpty(d.stateDir, rec.name + ".per-user");
    SocketsFound(ConfigOf(d, rec));
    DeviceFound(ConfigOf(d, rec));
  }

  lemma DeviceIs(name: string)
    ensures TunName(name) == "oc-" + (if |name| > 12 then name[..12] else name)
  {
    assert ("oc-" + name)[..|"oc-" + name|] == "oc-" + name;
    if |name| > 12 {
      assert ("oc-" + name)[..15] == "oc-" + name[..12];
    }
  }

  lemma CamouflageFound(c: InstanceConfig)
    requires Render(c).Some? && FlatConfig(c)
    ensures var text, cam := Render(c).value, c.camouflage;
            && Find(text, "camouflage") == Optional(cam.enabled, "camouflage = true")
            && Find(text, "camouflage_secret") == Optional(cam.enabled, "camouflage_secret = \"" + cam.secret + "\"")
            && Find(text, "camouflage_realm") ==
                 Optional(cam.enabled && cam.realm != "", "camouflage_realm = \"" + cam.realm + "\"")
  {
    hide Render, FlatConfig, Find, KeyLines, Line, Named, CamouflageEntries, Cidr.SplitCidr;
    CamouflageNames();
    FoundNamed(c, CamouflageOn, "camouflage", "camouflage = ");
    FoundNamed(c, CamouflageSecret, "camouflage_secret", "camouflage_secret = ");
    FoundNamed(c, CamouflageRealm, "camouflage_realm", "camouflage_realm = ");
    CamouflageLines(c, CamouflageOn);
    CamouflageLines(c, CamouflageSecret);
    CamouflageLines(c, CamouflageRealm);
    BareLine(CamouflageOn, "true", "camouflage", "camouflage = ");
    NamedLine(CamouflageSecret, InQuotes, c.camouflage.secret, "camouflage_secret", "camouflage_secret = ");
    NamedLine(CamouflageRealm, InQuotes, c.camouflage.realm, "camouflage_realm", "camouflage_realm = ");
    MaskLiterals(c.camouflage.secret, c.camouflage.realm);
  }

  lemma MaskLiterals(secret: string, realm: string)
    ensures "camouflage = " + "true" == "camouflage = true"
    ensures "camouflage_secret = " + (Opening(InQuotes) + secret + Closing(InQuotes))
         == "camouflage_secret = \"" + secret + "\""
    ensures "camouflage_realm = " + (Opening(InQuotes) + realm + Closing(InQuotes))
         == "camouflage_realm = \"" + realm + "\""
  {
    assert "camouflage_secret = " + "\"" == "camouflage_secret = \"";
    assert "camouflage_realm = " + "\"" == "camouflage_realm = \"";
  }

  /** About camouflage: nothing when it is off, else the secret and a realm unless that is empty. */
  lemma CamouflageReadBack(d: Dirs, rec: Instance)
    requires RenderRecord(d, rec).Some? && OneLineDirs(d) && FlatRecord(rec)
    ensures var text, cam := RenderRecord(d, rec).value, rec.camouflage;
            && Find(text, "camouflage") == Optional(cam.enabled, "camouflage = true")
            && Find(text, "camouflage_secret") == Optional(cam.enabled, "camouflage_secret = \"" + cam.secret + "\"")
            && Find(text, "camouflage_realm") ==
                 Optional(cam.enabled && cam.realm != "", "camouflage_realm = \"" + cam.realm + "\"")
  {
    hide Render, FlatConfig, FlatRecord, Find, Paths.Join, Paths.PerUserDir, HostOnly, ListenPort, TunName, PkiPath;
    RecordFlat(d, rec);
    CamouflageFound(ConfigOf(d, rec));
  }

  lemma MasksFound(c: InstanceConfig)
    requires Render(c).Some? && FlatConfig(c)
    ensures Cidr.SplitCidr(c.poolCidr).Some?
    ensures var text, pool := Render(c).value, Cidr.SplitCidr(c.poolCidr).value;
            && Find(text, "ipv4-network") == ["ipv4-network = " + pool.network]
            && Find(text, "ipv4-netmask") == ["ipv4-netmask = " + pool.netmask]
            && Find(text, "ipv6-network") == Optional(c.poolCidrV6 != "", "ipv6-network = " + c.poolCidrV6)
  {
    hide Render, FlatConfig, Find, KeyLines, Line, Named, NetworkEntries, Cidr.SplitCidr, KeyValueLines,
         Ordering.Canonical;
    MaskNames();
    FoundNamed(c, Ipv4Network, "ipv4-network", "ipv4-network = ");
    FoundNamed(c, Ipv4Netmask, "ipv4-netmask", "ipv4-netmask = ");
    FoundNamed(c, Ipv6Network, "ipv6-network", "ipv6-network = ");
    var pool := Cidr.SplitCidr(c.poolCidr).value;
    NetworkLines(c, pool, Ipv4Network);
    NetworkLines(c, pool, Ipv4Netmask);
    NetworkLines(c, pool, Ipv6Network);
    BareLine(Ipv4Network, pool.network, "ipv4-network", "ipv4-network = ");
    BareLine(Ipv4Netmask, pool.netmask, "ipv4-netmask", "ipv4-netmask = ");
    BareLine(Ipv6Network, c.poolCidrV6, "ipv6-network", "ipv6-network = ");
  }

  lemma RoutesFound(c: InstanceConfig)
    requires Render(c).Some? && FlatConfig(c)
    ensures Find(Render(c).value, "route") ==
              if c.routes == [] then [] else Starting("route = ", Ordering.Canonical(c.routes))
  {
    hide Render, FlatConfig, Find, KeyLines, Line, Named, NetworkEntries, Cidr.SplitCidr, KeyValueLines,
         Ordering.Canonical, Starting;
    RouteNames();
    FoundNamed(c, Route, "route", "route = ");
    NetworkLines(c, Cidr.SplitCidr(c.poolCidr).value, Route);
    ValueLines(Route, Ordering.Canonical(c.routes), "route", "route = ");
  }

  lemma ServersFound(c: InstanceConfig)
    requires Render(c).Some? && FlatConfig(c)
    ensures Find(Render(c).value, "dns") == Starting("dns = ", c.dns)
    ensures Find(Render(c).value, "default-domain") ==
              Optional(c.defaultDomain != "", "default-domain = " + c.defaultDomain)
  {
    hide Render, FlatConfig, Find, KeyLines, Line, Named, NetworkEntries, Cidr.SplitCidr, KeyValueLines,
         Ordering.Canonical, Starting;
    RouteNames();
    FoundNamed(c, Dns, "dns", "dns = ");
    FoundNamed(c, DefaultDomain, "default-domain", "default-domain = ");
    var pool := Cidr.SplitCidr(c.poolCidr).value;
    NetworkLines(c, pool, Dns);
    NetworkLines(c, pool, DefaultDomain);
    ValueLines(Dns, c.dns, "dns", "dns = ");
    BareLine(DefaultDomain, c.defaultDomain, "default-domain", "default-domain = ");
  }

  /**
   * About the network: the pool as network and mask, the IPv6 pool, every DNS server
   * in order, every route once in sorted order, and the host of the public endpoint.
   */
  lemma NetworkReadBack(d: Dirs, rec: Instance)
    requires RenderRecord(d, rec).Some? && OneLineDirs(d) && FlatRecord(rec)
    ensures Cidr.SplitCidr(rec.poolCidr).Some?
    ensures var text, pool := RenderRecord(d, rec).value, Cidr.SplitCidr(rec.poolCidr).value;
            && Find(text, "ipv4-network") == ["ipv4-network = " + pool.network]
            && Find(text, "ipv4-netmask") == ["ipv4-netmask = " + pool.netmask]
            && Find(text, "ipv6-network") == Optional(rec.poolCidrV6 != "", "ipv6-network = " + rec.poolCidrV6)
            && Find(text, "dns") == Starting("dns = ", rec.dns)
            && Find(text, "route") ==
                 (if rec.routes == [] then [] else Starting("route = ", Ordering.Canonical(rec.routes)))
            && Find(text, "default-domain") ==
                 Optional(HostOnly(rec.publicEndpoint) != "", "default-domain = " + HostOnly(rec.publicEndpoint))
  {
    hide Render, FlatConfig, FlatRecord, Find, Paths.Join, Paths.PerUserDir, HostOnly, ListenPort, TunName, PkiPath,
         Cidr.SplitCidr, Ordering.Canonical, Starting;
    RecordFlat(d, rec);
    MasksFound(ConfigOf(d, rec));
    RoutesFound(ConfigOf(d, rec));
    ServersFound(ConfigOf(d, rec));
  }

  lemma LimitOf(c: InstanceConfig, k: Key)
    requires c.maxClients == 0 && c.maxSameClients == 0
    ensures k == MaxClients ==> KeyLines(LimitEntries(c), k) == [Line(Put(k, Numerals.ShowInt(1024)))]
    ensures k == MaxSameClients ==> KeyLines(LimitEntries(c), k) == [Line(Put(k, Numerals.ShowInt(2)))]
    ensures k in {TryMtuDiscovery, CiscoClientCompat, DtlsLegacy} ==>
              KeyLines(LimitEntries(c), k) == [Line(Put(k, "true"))]
  {
    hide KeyLines, LimitEntries, Line, Numerals.ShowInt;
    LimitLines(c, k);
  }

  lemma LimitFound(c: InstanceConfig, k: Key, value: string, name: string, start: string)
    requires Render(c).Some? && FlatConfig(c) && Named(k, name, start)
    requires SectionOf(k) == Limits && KeyLines(LimitEntries(c), k) == [Line(Put(k, value))]
    ensures Find(Render(c).value, name) == [start + value]
  {
    hide Render, FlatConfig, Find, KeyLines, Line, Named, LimitEntries, SectionOf, Cidr.SplitCidr;
    FoundNamed(c, k, name, start);
    BareLine(k, value, name, start);
  }

  lemma LimitsFound(c: InstanceConfig)
    requires Render(c).Some? && FlatConfig(c) && c.maxClients == 0 && c.maxSameClients == 0
    ensures var text := Render(c).value;
            && Find(text, "max-clients") == ["max-clients = 1024"]
            && Find(text, "max-same-clients") == ["max-same-clients = 2"]
            && Find(text, "try-mtu-discovery") == ["try-mtu-discovery = true"]
            && Find(text, "cisco-client-compat") == ["cisco-client-compat = true"]
            && Find(text, "dtls-legacy") == ["dtls-legacy = true"]
  {
    hide *;
    LimitSections();
    LimitNames();
    CompatNames();
    DtlsNames();
    LimitOf(c, MaxClients);
    LimitOf(c, MaxSameClients);
    LimitOf(c, TryMtuDiscovery);
    LimitOf(c, CiscoClientCompat);
    LimitOf(c, DtlsLegacy);
    LimitFound(c, MaxClients, Numerals.ShowInt(1024), "max-clients", "max-clients = ");
    LimitFound(c, MaxSameClients, Numerals.ShowInt(2), "max-same-clients", "max-same-clients = ");
    LimitFound(c, TryMtuDiscovery, "true", "try-mtu-discovery", "try-mtu-discovery = ");
    LimitFound(c, CiscoClientCompat, "true", "cisco-client-compat", "cisco-client-compat = ");
    LimitFound(c, DtlsLegacy, "true", "dtls-legacy", "dtls-legacy = ");
    LimitLiterals();
    FlagLiterals();
  }

  lemma LimitSections()
    ensures SectionOf(MaxClients) == Limits && SectionOf(MaxSameClients) == Limits
    ensures SectionOf(TryMtuDiscovery) == Limits && SectionOf(CiscoClientCompat) == Limits
    ensures SectionOf(DtlsLegacy) == Limits
  {
  }

  lemma LimitLiterals()
    ensures "max-clients = " + Numerals.ShowInt(1024) == "max-clients = 1024"
    ensures "max-same-clients = " + Numerals.ShowInt(2) == "max-same-clients = 2"
  {
    assert Numerals.Show(1024, Numerals.Ten) == "1024";
  }

  lemma FlagLiterals()
    ensures "try-mtu-discovery = " + "true" == "try-mtu-discovery = true"
    ensures "cisco-client-compat = " + "true" == "cisco-client-compat = true"
    ensures "dtls-legacy = " + "true" == "dtls-legacy = true"
  {
  }

  /** And the limits are constants. */
  lemma LimitsReadBack(d: Dirs, rec: Instance)
    requires RenderRecord(d, rec).Some? && OneLineDirs(d) && FlatRecord(rec)
    ensures var text := RenderRecord(d, rec).value;
            && Find(text, "max-clients") == ["max-clients = 1024"]
            && Find(text, "max-same-clients") == ["max-same-clients = 2"]
            && Find(text, "try-mtu-discovery") == ["try-mtu-discovery = true"]
            && Find(text, "cisco-client-compat") == ["cisco-client-compat = true"]
            && Find(text, "dtls-legacy") == ["dtls-legacy = true"]
  {
    hide Render, FlatConfig, FlatRecord, Find, Paths.Join, Paths.PerUserDir, HostOnly, ListenPort, TunName, PkiPath;
    RecordFlat(d, rec);
    LimitsFound(ConfigOf(d, rec));
  }

  // ------------------------------------------------ the comments of a file

  function Remarks(lines: Lines): Lines {
    if lines == [] then []
    else (if lines[0] != "" && lines[0][0] == '#' then [lines[0]] else []) + Remarks(lines[1..])
  }

  // The lines of the comments among the entries.
  function CommentLines(es: seq<Entry>): Lines {
    if es == [] then [] else (if es[0].Comment? then [Line(es[0])] else []) + CommentLines(es[1..])
  }

  predicate NoComment(es: seq<Entry>) {
    forall i | 0 <= i < |es| :: !es[i].Comment?
  }

  lemma {:induction false} RemarksAppend(a: Lines, b: Lines)
    ensures Remarks(a + b) == Remarks(a) + Remarks(b)
  {
    if a == [] {
      assert a + b == b;
    } else {
      assert (a + b)[1..] == a[1..] + b;
      RemarksAppend(a[1..], b);
    }
  }

  lemma RemarksOne(line: string)
    ensures Remarks([line]) == if line != "" && line[0] == '#' then [line] else []
  {
    assert [line][1..] == [];
  }

  lemma RemarkOf(e: Entry)
    ensures Line(e) != "" && Line(e)[0] == '#' <==> e.Comment?
  {
    hide KeyText, Opening, Closing;
    match e
    case Setting(key, wrap, value) =>
      KeyTextGood(key);
      assert Line(e)[0] == KeyText(key)[0];
    case Comment(text) => assert Line(e)[0] == '#';
    case Empty =>
  }

  lemma {:induction false} PrintedRemarks(es: seq<Entry>)
    requires AllOneLine(es)
    ensures Remarks(Text.Split(Print(es), Text.NL)) == CommentLines(es)
  {
    hide Text.Split, Line, Remarks;
    if es == [] {
      Text.SplitEmpty(Text.NL);
      RemarksOne("");
    } else {
      var line, rest := Line(es[0]), Print(es[1..]);
      Text.SplitCons(line, rest, Text.NL);
      RemarksAppend([line], Text.Split(rest, Text.NL));
      RemarksOne(line);
      RemarkOf(es[0]);
      PrintedRemarks(es[1..]);
    }
  }

  lemma {:induction false} CommentLinesAppend(a: seq<Entry>, b: seq<Entry>)
    ensures CommentLines(a + b) == CommentLines(a) + CommentLines(b)
  {
    hide Line;
    if a == [] {
      assert a + b == b;
    } else {
      assert (a + b)[1..] == a[1..] + b;
      CommentLinesAppend(a[1..], b);
      var first := if a[0].Comment? then [Line(a[0])] else [];
      assert first + (CommentLines(a[1..]) + CommentLines(b)) == first + CommentLines(a[1..]) + CommentLines(b);
    }
  }

  lemma {:induction false} NoCommentLines(es: seq<Entry>)
    requires NoComment(es)
    ensures CommentLines(es) == []
  {
    if es != [] {
      NoCommentLines(es[1..]);
    }
  }

  lemma HeadIs(c: InstanceConfig, before: string, after: string)
    requires before == "Generated by openconnectd for instance " && after == ". Do not edit by hand."
    ensures HeadEntries(c) == [Comment(before + Quote(c.name) + after), Empty]
  {
    hide Quote;
  }

  lemma HeadLine(c: InstanceConfig, before: string, after: string)
    requires HeadEntries(c) == [Comment(before + Quote(c.name) + after), Empty]
    ensures CommentLines(HeadEntries(c)) == ["# " + before + Quote(c.name) + after]
  {
    hide Quote, HeadEntries;
    var es := HeadEntries(c);
    assert es[1..] == [Empty] && [Empty][1..] == [];
    assert "# " + (before + Quote(c.name) + after) == "# " + before + Quote(c.name) + after;
  }

  lemma HeadComment(c: InstanceConfig)
    ensures CommentLines(HeadEntries(c))
         == ["# Generated by " + "openconnectd for instance " + Quote(c.name) + ". Do not edit " + "by hand."]
  {
    var before, after := "Generated by openconnectd for instance ", ". Do not edit by hand.";
    HeadTexts();
    HeadIs(c, before, after);
    HeadLine(c, before, after);
    hide *;
    HashFirst("# ", "Generated by ", "openconnectd for instance ");
    LastPieces("# " + before + Quote(c.name), ". Do not edit ", "by hand.");
  }

  lemma HashFirst(hash: string, a: string, b: string)
    ensures hash + (a + b) == hash + a + b
  {
  }

  lemma LastPieces(start: string, a: string, b: string)
    ensures start + (a + b) == start + a + b
  {
  }

  lemma HeadTexts()
    ensures "Generated by openconnectd for instance " == "Generated by " + "openconnectd for instance "
    ensures ". Do not edit by hand." == ". Do not edit " + "by hand."
    ensures "# " + "Generated by " == "# Generated by "
  {
  }

  lemma RouteComment(routes: seq<string>)
    ensures CommentLines(RouteEntries(routes))
         == Optional(routes == [], "# full tunnel: " + "no explicit route " + "\U{21D2} default route pushed")
  {
    hide Ordering.Canonical;
    if routes == [] {
      TunnelText();
      assert [Comment(FULL_TUNNEL)][1..] == [];
      hide FULL_TUNNEL;
    } else {
      NoCommentLines(Each(Route, Ordering.Canonical(routes)));
    }
  }

  lemma TunnelText()
    ensures "# " + FULL_TUNNEL == "# full tunnel: " + "no explicit route " + "\U{21D2} default route pushed"
  {
    assert "full tunnel: no explicit route " == "full tunnel: " + "no explicit route ";
    assert "# " + "full tunnel: " == "# full tunnel: ";
  }

  lemma SectionsWithout(c: InstanceConfig)
    ensures NoComment(PortEntries(c)) && NoComment(SocketEntries(c))
    ensures NoComment(CamouflageEntries(c)) && NoComment(LimitEntries(c))
  {
    hide Numerals.ShowInt, OrDefault;
  }

  lemma AuthWithout(c: InstanceConfig)
    ensures NoComment(AuthEntries(c))
  {
    hide UsesCert;
    assert NoComment(BackendEntries(c)) && NoComment(CaEntries(c));
  }

  lemma NetworkComment(c: InstanceConfig, pool: Cidr.Split)
    ensures CommentLines(NetworkEntries(c, pool)) == CommentLines(RouteEntries(c.routes))
  {
    hide Each, RouteEntries, CommentLines;
    var head := [Put(Ipv4Network, pool.network), Put(Ipv4Netmask, pool.netmask)];
    var v6 := When(c.poolCidrV6 != "", Put(Ipv6Network, c.poolCidrV6));
    var dns, routes := Each(Dns, c.dns), RouteEntries(c.routes);
    var tail := When(c.defaultDomain != "", Put(DefaultDomain, c.defaultDomain)) + [Empty];
    NoCommentLines(head + v6);
    NoCommentLines(dns);
    NoCommentLines(tail);
    CommentLinesAppend(head + v6, dns);
    CommentLinesAppend(head + v6 + dns, routes);
    CommentLinesAppend(head + v6 + dns + routes, tail);
    assert NetworkEntries(c, pool) == head + v6 + dns + routes + tail;
  }

  lemma FileComments(c: InstanceConfig, pool: Cidr.Split)
    ensures CommentLines(Entries(c, pool)) == CommentLines(HeadEntries(c)) + CommentLines(RouteEntries(c.routes))
  {
    hide *;
    var s, m, n, l := SocketEntries(c), CamouflageEntries(c), NetworkEntries(c, pool), LimitEntries(c);
    AuthWithout(c);
    SectionsWithout(c);
    NetworkComment(c, pool);
    NoCommentLines(AuthEntries(c));
    NoCommentLines(PortEntries(c));
    NoCommentLines(s);
    NoCommentLines(m);
    NoCommentLines(l);
    EntriesAre(c, pool);
    SectionsOf(c, pool);
    CommentLinesAppend(EntriesBefore(c) + PortEntries(c), EntriesAfter(c, pool));
    CommentLinesAppend(EntriesBefore(c), PortEntries(c));
    CommentLinesAppend(HeadEntries(c), AuthEntries(c));
    CommentLinesAppend(s + m + n, l);
    CommentLinesAppend(s + m, n);
    CommentLinesAppend(s, m);
  }

  /** The comments of a file: whose file it is, and the full tunnel when there is no route. */
  lemma CommentsReadBack(d: Dirs, rec: Instance)
    requires RenderRecord(d, rec).Some? && OneLineDirs(d) && FlatRecord(rec)
    ensures Remarks(Text.Split(RenderRecord(d, rec).value, Text.NL))
         == ["# Generated by " + "openconnectd for instance " + Quote(rec.name) + ". Do not edit " + "by hand."]
            + Optional(rec.routes == [], "# full tunnel: " + "no explicit route " + "\U{21D2} default route pushed")
  {
    hide *;
    var c := ConfigOf(d, rec);
    RecordFlat(d, rec);
    RecordRender(d, rec);
    RenderedIs(c);
    var pool := Cidr.SplitCidr(c.poolCidr).value;
    FileFlat(c, pool);
    PrintedRemarks(Entries(c, pool));
    FileComments(c, pool);
    HeadComment(c);
    RouteComment(c.routes);
  }

  lemma RecordRender(d: Dirs, rec: Instance)
    ensures RenderRecord(d, rec) == Render(ConfigOf(d, rec))
    ensures ConfigOf(d, rec).name == rec.name && ConfigOf(d, rec).routes == rec.routes
  {
    hide Render, Paths.Join, Paths.PerUserDir, HostOnly, ListenPort, TunName, PkiPath;
  }
}
