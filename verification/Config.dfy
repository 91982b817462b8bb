/**
 * Rendering one ocserv.conf: the entries the renderer prints, the text they
 * make, and the listener settings ocserv finds on the lines of that text.
 */
module Config {
  import opened Wrappers
  import opened Records
  import Cidr
  import Numerals
  import Ordering
  import Paths
  import Text

  type Lines = seq<string>

  // The directories of the daemon's own configuration.
  datatype Dirs = Dirs(stateDir: string, configDir: string, pkiDir: string, runDir: string)

  datatype InstanceConfig = InstanceConfig(
    name: string,
    tcpPort: int,
    udpPort: int,
    localBind: string,
    proxyProto: bool,
    poolCidr: string,
    poolCidrV6: string,
    dns: seq<string>,
    routes: seq<string>,
    authMode: AuthMode,
    camouflage: Camouflage,
    serverCert: string,
    serverKey: string,
    caCert: string,
    crlFile: string,
    ocpasswdFile: string,
    occtlSocket: string,
    runSocket: string,
    device: string,
    configPerUserDir: string,
    maxClients: int,
    maxSameClients: int,
    defaultDomain: string)

  // ------------------------------------------------ host:port text

  function IndexOf(s: string, c: char): (i: int)
    ensures -1 <= i < |s|
    ensures i >= 0 ==> s[i] == c
  {
    if s == "" then -1
    else if s[0] == c then 0
    else
      var i := IndexOf(s[1..], c);
      if i < 0 then -1 else i + 1
  }

  function LastIndexOf(s: string, c: char): (i: int)
    ensures -1 <= i < |s|
    ensures i >= 0 ==> s[i] == c
  {
    if s == "" then -1
    else if s[|s| - 1] == c then |s| - 1
    else LastIndexOf(s[..|s| - 1], c)
  }

  // net.SplitHostPort.
  function SplitHostPort(s: string): Option<(string, string)> {
    var i := LastIndexOf(s, ':');
    if i < 0 then None
    else if s[0] == '[' then
      var end := IndexOf(s, ']');
      if end < 0 || end + 1 != i then None
      else if '[' in s[1..] || ']' in s[end + 1..] then None
      else Some((s[1..end], s[i + 1..]))
    else if ':' in s[..i] || '[' in s || ']' in s then None
    else Some((s[..i], s[i + 1..]))
  }

  function AtoiOr(s: string, otherwise: int): int {
    match Numerals.Atoi(s)
    case Some(p) => p
    case None => otherwise
  }

  function ParseListenPort(listen: string): int {
    var s := Text.Trim(listen);
    if s == "" then 0
    else
      var whole := AtoiOr(s, 0);
      var i := LastIndexOf(s, ':');
      var afterColon := if i >= 0 then AtoiOr(s[i + 1..], whole) else whole;
      match SplitHostPort(s)
      case Some((_, port)) => AtoiOr(port, afterColon)
      case None => afterColon
  }

  function HostOnly(endpoint: string): string {
    if endpoint == "" then ""
    else
      match SplitHostPort(endpoint)
      case Some((host, _)) => host
      case None => endpoint
  }

  function TunName(instance: string): string {
    var n := "oc-" + instance;
    if |n| > 15 then n[..15] else n
  }

  // ------------------------------------------------ from record to config

  function PkiPath(d: Dirs, name: string, file: string): string {
    Paths.Join(Paths.Join(d.pkiDir, name), file)
  }

  function ListenPort(rec: Instance): int {
    var p := ParseListenPort(rec.listen);
    if p <= 0 then 443 else p
  }

  function ConfigOf(d: Dirs, rec: Instance): InstanceConfig {
    InstanceConfig(
      rec.name,
      if rec.tcpPort > 0 then rec.tcpPort else ListenPort(rec),
      if rec.dtls then ListenPort(rec) else 0,
      rec.localBind,
      rec.proxyProto,
      rec.poolCidr,
      rec.poolCidrV6,
      rec.dns,
      rec.routes,
      rec.authMode,
      rec.camouflage,
      PkiPath(d, rec.name, "server.pem"),
      PkiPath(d, rec.name, "server.key"),
      if UsesCert(rec.authMode) then PkiPath(d, rec.name, "ca.pem") else "",
      if UsesCert(rec.authMode) then PkiPath(d, rec.name, "crl.pem") else "",
      if UsesPassword(rec.authMode) then Paths.Join(d.stateDir, rec.name + ".ocpasswd") else "",
      Paths.Join(d.runDir, rec.name + ".occtl"),
      Paths.Join(d.runDir, rec.name + ".sock"),
      TunName(rec.name),
      Paths.PerUserDir(d.stateDir, rec.name),
      0,
      0,
      HostOnly(rec.publicEndpoint))
  }

  // ------------------------------------------------ the lines

  const HEX := ['0', '1', '2', '3', '4', '5', '6', '7', '8', '9', 'a', 'b', 'c', 'd', 'e', 'f']

  // One character under the %q verb; every non-ASCII character is taken to be printable.
  function QuoteChar(c: char): string {
    if c == '"' then "\\\"" else if c == '\\' then "\\\\"
    else if c == '\U{0007}' then "\\a" else if c == '\U{0008}' then "\\b"
    else if c == '\U{000C}' then "\\f" else if c == '\n' then "\\n"
    else if c == '\r' then "\\r" else if c == '\t' then "\\t" else if c == '\U{000B}' then "\\v"
    else if c < ' ' || c == '\U{007F}' then "\\x" + [HEX[c as int / 16], HEX[c as int % 16]]
    else [c]
  }

  function QuoteBody(s: string): string {
    if s == "" then "" else QuoteChar(s[0]) + QuoteBody(s[1..])
  }

  function Quote(s: string): string {
    "\"" + QuoteBody(s) + "\""
  }

  function OrDefault(v: int, def: int): int {
    if v <= 0 then def else v
  }

  predicate Valid(c: InstanceConfig) {
    && !Text.Blank(c.name)
    && c.tcpPort > 0
    && c.serverCert != "" && c.serverKey != ""
    && c.poolCidr != ""
  }

  // ------------------------------------------------ entries

  datatype Key =
    | AuthKey | EnableAuth | CaCert | CertUserOid | Crl
    | ServerCert | ServerKey
    | TcpPort | UdpPort | ListenHost | ListenProxyProto
    | SocketFile | OcctlSocketFile | UseOcctl | Device | ConfigPerUser
    | CamouflageOn | CamouflageSecret | CamouflageRealm
    | Ipv4Network | Ipv4Netmask | Ipv6Network | Dns | Route | DefaultDomain
    | MaxClients | MaxSameClients | TryMtuDiscovery | CiscoClientCompat | DtlsLegacy

  function KeyText(k: Key): string {
    match k
    case AuthKey => "auth"
    case EnableAuth => "enable-auth"
    case CaCert => "ca-cert"
    case CertUserOid => "cert-user-oid"
    case Crl => "crl"
    case ServerCert => "server-cert"
    case ServerKey => "server-key"
    case TcpPort => "tcp-port"
    case UdpPort => "udp-port"
    case ListenHost => "listen-host"
    case ListenProxyProto => "listen-proxy-proto"
    case SocketFile => "socket-file"
    case OcctlSocketFile => "occtl-socket-file"
    case UseOcctl => "use-occtl"
    case Device => "device"
    case ConfigPerUser => "config-per-user"
    case CamouflageOn => "camouflage"
    case CamouflageSecret => "camouflage_secret"
    case CamouflageRealm => "camouflage_realm"
    case Ipv4Network => "ipv4-network"
    case Ipv4Netmask => "ipv4-netmask"
    case Ipv6Network => "ipv6-network"
    case Dns => "dns"
    case Route => "route"
    case DefaultDomain => "default-domain"
    case MaxClients => "max-clients"
    case MaxSameClients => "max-same-clients"
    case TryMtuDiscovery => "try-mtu-discovery"
    case CiscoClientCompat => "cisco-client-compat"
    case DtlsLegacy => "dtls-legacy"
  }

  // How a value is wrapped: as it is, in quotes, or as a password back end.
  datatype Wrap = Bare | InQuotes | PasswdFile

  function Opening(w: Wrap): string {
    match w case Bare => "" case InQuotes => "\"" case PasswdFile => "\"plain[passwd="
  }

  function Closing(w: Wrap): string {
    match w case Bare => "" case InQuotes => "\"" case PasswdFile => "]\""
  }

  // What one print call of the renderer writes, without its newline.
  datatype Entry = Empty | Comment(text: string) | Setting(key: Key, wrap: Wrap, value: string)

  function Line(e: Entry): string {
    match e
    case Empty => ""
    case Comment(text) => "# " + text
    case Setting(key, wrap, value) => KeyText(key) + " = " + (Opening(wrap) + value + Closing(wrap))
  }

  // The text of the entries, a newline after each; a value may hold further newlines.
  function Print(es: seq<Entry>): string {
    if es == [] then "" else Line(es[0]) + [Text.NL] + Print(es[1..])
  }

  function Put(key: Key, value: string): Entry {
    Setting(key, Bare, value)
  }

  function When(condition: bool, e: Entry): seq<Entry> {
    if condition then [e] else []
  }

  function Each(key: Key, values: seq<string>): (es: seq<Entry>)
    ensures |es| == |values|
    ensures forall i | 0 <= i < |values| :: es[i] == Put(key, values[i])
  {
    if values == [] then [] else [Put(key, values[0])] + Each(key, values[1..])
  }

  // ------------------------------------------------ the sections

  function HeadEntries(c: InstanceConfig): seq<Entry> {
    [Comment("Generated by openconnectd for instance " + Quote(c.name) + ". Do not edit by hand."), Empty]
  }

  function BackendEntries(c: InstanceConfig): seq<Entry> {
    if c.authMode.Password? then [Setting(AuthKey, PasswdFile, c.ocpasswdFile)]
    else
      [Setting(AuthKey, InQuotes, "certificate")]
      + When(c.authMode.Both?, Setting(EnableAuth, PasswdFile, c.ocpasswdFile))
  }

  function CaEntries(c: InstanceConfig): seq<Entry> {
    if UsesCert(c.authMode) then
      [Put(CaCert, c.caCert), Put(CertUserOid, "2.5.4.3")] + When(c.crlFile != "", Put(Crl, c.crlFile))
    else []
  }

  function AuthEntries(c: InstanceConfig): seq<Entry> {
    BackendEntries(c) + CaEntries(c) + [Empty, Put(ServerCert, c.serverCert), Put(ServerKey, c.serverKey)]
  }

  // The settings ocserv binds its sockets from; it does not apply them on SIGHUP.
  function PortEntries(c: InstanceConfig): seq<Entry> {
    [Put(TcpPort, Numerals.ShowInt(c.tcpPort))]
    + When(c.udpPort > 0, Put(UdpPort, Numerals.ShowInt(c.udpPort)))
    + When(c.localBind != "", Put(ListenHost, c.localBind))
    + When(c.proxyProto, Put(ListenProxyProto, "true"))
  }

  function SocketEntries(c: InstanceConfig): seq<Entry> {
    [Put(SocketFile, c.runSocket), Put(OcctlSocketFile, c.occtlSocket), Put(UseOcctl, "true"), Put(Device, c.device)]
    + When(c.configPerUserDir != "", Put(ConfigPerUser, c.configPerUserDir))
    + [Empty]
  }

  function CamouflageEntries(c: InstanceConfig): seq<Entry> {
    if c.camouflage.enabled then
      [Put(CamouflageOn, "true"), Setting(CamouflageSecret, InQuotes, c.camouflage.secret)]
      + When(c.camouflage.realm != "", Setting(CamouflageRealm, InQuotes, c.camouflage.realm))
      + [Empty]
    else []
  }

  // In two halves: the verifier is quick on short literals only.
  const FULL_TUNNEL := "full tunnel: no explicit route " + "\U{21D2} default route pushed"

  function RouteEntries(routes: seq<string>): seq<Entry> {
    if routes == [] then [Comment(FULL_TUNNEL)]
    else Each(Route, Ordering.Canonical(routes))
  }

  function NetworkEntries(c: InstanceConfig, pool: Cidr.Split): seq<Entry> {
    [Put(Ipv4Network, pool.network), Put(Ipv4Netmask, pool.netmask)]
    + When(c.poolCidrV6 != "", Put(Ipv6Network, c.poolCidrV6))
    + Each(Dns, c.dns)
    + RouteEntries(c.routes)
    + When(c.defaultDomain != "", Put(DefaultDomain, c.defaultDomain))
    + [Empty]
  }

  function LimitEntries(c: InstanceConfig): seq<Entry> {
    [Put(MaxClients, Numerals.ShowInt(OrDefault(c.maxClients, 1024))),
     Put(MaxSameClients, Numerals.ShowInt(OrDefault(c.maxSameClients, 2))),
     Put(TryMtuDiscovery, "true"),
     Put(CiscoClientCompat, "true"),
     Put(DtlsLegacy, "true")]
  }

  // Everything printed before and after the listeners.
  function EntriesBefore(c: InstanceConfig): seq<Entry> {
    HeadEntries(c) + AuthEntries(c)
  }

  function EntriesAfter(c: InstanceConfig, pool: Cidr.Split): seq<Entry> {
    SocketEntries(c) + CamouflageEntries(c) + NetworkEntries(c, pool) + LimitEntries(c)
  }

  // InstanceConfig.Render; None for each of its errors.
  function Render(c: InstanceConfig): Option<string> {
    if !Valid(c) then None
    else if UsesCert(c.authMode) && c.caCert == "" then None
    else if c.camouflage.enabled && c.camouflage.secret == "" then None
    else
      match Cidr.SplitCidr(c.poolCidr)
      case None => None
      case Some(pool) => Some(Print(EntriesBefore(c) + PortEntries(c) + EntriesAfter(c, pool)))
  }

  // What renderAndWrite puts into the config file of a record.
  function RenderRecord(d: Dirs, rec: Instance): Option<string> {
    Render(ConfigOf(d, rec))
  }

  // renderPerUserConfig.
  function PinText(ip: string): string {
    "# Generated by openconnectd. Do not edit by hand.\n" + "explicit-ipv4 = " + ip + "\n"
  }

  // ------------------------------------------------ the file as ocserv reads it

  // The name of the setting on a line: what stands before the first equals sign.
  function Directive(line: string): string {
    var f := Text.Split(line, '=');
    if |f| > 1 then Text.Trim(f[0]) else ""
  }

  const LISTENERS: set<Key> := {TcpPort, UdpPort, ListenHost, ListenProxyProto}

  predicate IsListenerLine(line: string) {
    exists k | k in LISTENERS :: Directive(line) == KeyText(k)
  }

  function Listeners(lines: Lines): Lines {
    if lines == [] then []
    else (if IsListenerLine(lines[0]) then [lines[0]] else []) + Listeners(lines[1..])
  }

  // The listeners a process binds when it starts on a config file.
  function Bound(text: string): Lines {
    Listeners(Text.Split(text, Text.NL))
  }

  // ------------------------------------------------ loops of the renderer

  /** dedupSorted: a seen-set filter over the input, then the library sort. */
  method DedupSorted(input: seq<string>) returns (out: seq<string>)
    ensures Ordering.Increasing(out) && Ordering.Elements(out) == Ordering.Elements(input)
    ensures out == Ordering.Canonical(input)
  {
    var seen: set<string> := {};
    out := [];
    for i := 0 to |input|
      invariant seen == Ordering.Elements(input[..i]) == Ordering.Elements(out)
    {
      assert input[..i + 1] == input[..i] + [input[i]];
      if input[i] !in seen {
        seen := seen + {input[i]};
        out := out + [input[i]];
      }
    }
    assert input[..|input|] == input;
    out := Ordering.Canonical(out);
    Ordering.CanonicalBySet(out, input);
    Ordering.IncreasingUnique(out, Ordering.Canonical(input));
  }

  lemma {:induction false} PrintAppend(a: seq<Entry>, b: seq<Entry>)
    ensures Print(a + b) == Print(a) + Print(b)
  {
    hide Line;
    if a == [] {
      assert a + b == b;
    } else {
      assert (a + b)[1..] == a[1..] + b;
      PrintAppend(a[1..], b);
      var first := Line(a[0]) + [Text.NL];
      assert first + (Print(a[1..]) + Print(b)) == first + Print(a[1..]) + Print(b);
    }
  }

  lemma PrintOne(e: Entry)
    ensures Print([e]) == Line(e) + [Text.NL]
  {
    hide Line;
    assert [e][1..] == [];
  }

  lemma PrintNone()
    ensures Print([]) == ""
  {
  }

  lemma PrintNext(key: Key, values: seq<string>, i: nat)
    requires i < |values|
    ensures Print(Each(key, values)[..i + 1])
         == Print(Each(key, values)[..i]) + (Line(Put(key, values[i])) + [Text.NL])
  {
    var es, e := Each(key, values), Put(key, values[i]);
    assert es[..i + 1] == es[..i] + [e];
    hide *;
    PrintAppend(es[..i], [e]);
    PrintOne(e);
  }

  /** The loops over DNS servers and routes: one line per value, appended in order. */
  method PrintEach(key: Key, values: seq<string>, before: string) returns (b: string)
    ensures b == before + Print(Each(key, values))
  {
    hide Line, Print, Put;
    PrintNone();
    b := before;
    for i := 0 to |values|
      invariant b == before + Print(Each(key, values)[..i])
    {
      PrintNext(key, values, i);
      b := b + (Line(Put(key, values[i])) + [Text.NL]);
    }
    assert Each(key, values)[..|values|] == Each(key, values);
  }

  /** InstanceConfig.Render, section by section into one growing text. */
  method PrintConfig(c: InstanceConfig) returns (r: Option<string>)
    ensures r == Render(c)
  {
    hide Print, AuthEntries, HeadEntries, PortEntries, SocketEntries, CamouflageEntries, NetworkEntries, LimitEntries;
    if !Valid(c) {
      return None;
    }
    var b := Print(EntriesBefore(c));
    if UsesCert(c.authMode) && c.caCert == "" {
      return None;
    }
    b := b + Print(PortEntries(c)) + Print(SocketEntries(c));
    if c.camouflage.enabled && c.camouflage.secret == "" {
      return None;
    }
    b := b + Print(CamouflageEntries(c));
    var pool := Cidr.SplitCidr(c.poolCidr);
    if pool.None? {
      return None;
    }
    var n := PrintNetwork(c, pool.value);
    b := b + n + Print(LimitEntries(c));
    PrintSections(c, pool.value);
    return Some(b);
  }

  lemma PrintSections(c: InstanceConfig, pool: Cidr.Split)
    ensures Print(EntriesBefore(c) + PortEntries(c) + EntriesAfter(c, pool))
         == Print(EntriesBefore(c)) + Print(PortEntries(c)) + Print(SocketEntries(c)) + Print(CamouflageEntries(c))
            + Print(NetworkEntries(c, pool)) + Print(LimitEntries(c))
  {
    hide Print, EntriesBefore, PortEntries, SocketEntries, CamouflageEntries, NetworkEntries, LimitEntries;
    var s, m, n, l := SocketEntries(c), CamouflageEntries(c), NetworkEntries(c, pool), LimitEntries(c);
    PrintAppend(EntriesBefore(c) + PortEntries(c), EntriesAfter(c, pool));
    PrintAppend(EntriesBefore(c), PortEntries(c));
    PrintAppend(s + m + n, l);
    PrintAppend(s + m, n);
    PrintAppend(s, m);
  }

  method PrintNetwork(c: InstanceConfig, pool: Cidr.Split) returns (b: string)
    ensures b == Print(NetworkEntries(c, pool))
  {
    hide Print, Each, Ordering.Canonical;
    var head := [Put(Ipv4Network, pool.network), Put(Ipv4Netmask, pool.netmask)]
                + When(c.poolCidrV6 != "", Put(Ipv6Network, c.poolCidrV6));
    var tail := When(c.defaultDomain != "", Put(DefaultDomain, c.defaultDomain)) + [Empty];
    b := PrintEach(Dns, c.dns, Print(head));
    if |c.routes| == 0 {
      b := b + Print(RouteEntries([]));
    } else {
      var routes := DedupSorted(c.routes);
      b := PrintEach(Route, routes, b);
    }
    b := b + Print(tail);
    PrintAppend(head, Each(Dns, c.dns));
    PrintAppend(head + Each(Dns, c.dns), RouteEntries(c.routes));
    PrintAppend(head + Each(Dns, c.dns) + RouteEntries(c.routes), tail);
    assert NetworkEntries(c, pool) == head + Each(Dns, c.dns) + RouteEntries(c.routes) + tail;
  }

  // ------------------------------------------------ routes

  /** Configs that differ only in the order or repetition of their routes render to the same file. */
  lemma RoutesCanonical(c: InstanceConfig, routes: seq<string>)
    requires Ordering.Elements(c.routes) == Ordering.Elements(routes)
    ensures Render(c.(routes := routes)) == Render(c)
  {
    hide AuthEntries, HeadEntries, PortEntries, SocketEntries, CamouflageEntries, NetworkEntries, LimitEntries, Print;
    SectionsIgnoreRoutes(c, routes);
    if Cidr.SplitCidr(c.poolCidr).Some? {
      NetworkByRouteSet(c, routes, Cidr.SplitCidr(c.poolCidr).value);
    }
  }

  lemma SectionsIgnoreRoutes(c: InstanceConfig, routes: seq<string>)
    ensures HeadEntries(c.(routes := routes)) == HeadEntries(c)
    ensures AuthEntries(c.(routes := routes)) == AuthEntries(c)
    ensures PortEntries(c.(routes := routes)) == PortEntries(c)
    ensures SocketEntries(c.(routes := routes)) == SocketEntries(c)
    ensures CamouflageEntries(c.(routes := routes)) == CamouflageEntries(c)
    ensures LimitEntries(c.(routes := routes)) == LimitEntries(c)
  {
    hide Quote, When, OrDefault, Numerals.ShowInt;
  }

  lemma NetworkByRouteSet(c: InstanceConfig, routes: seq<string>, pool: Cidr.Split)
    requires Ordering.Elements(c.routes) == Ordering.Elements(routes)
    ensures NetworkEntries(c.(routes := routes), pool) == NetworkEntries(c, pool)
  {
    hide When, Each, Ordering.Canonical, Ordering.Elements;
    Ordering.NoElements(c.routes);
    Ordering.NoElements(routes);
    Ordering.CanonicalBySet(c.routes, routes);
  }
}
