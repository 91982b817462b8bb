/** When calls succeed, what they then deliver, and a run in which everything the invariants promise is there. */
module Progress {
  import opened Wrappers
  import opened Records
  import opened Config
  import opened World
  import opened Plans
  import opened Durable
  import opened Crash
  import opened Recovery
  import opened SteadyState
  import opened SteadyInstances
  import opened SteadyClients
  import opened Runs
  import opened Processes
  import opened Sockets
  import opened Endpoints
  import opened Service
  import opened Writes
  import opened Ledger
  import opened Requests
  import opened Properties
  import Cidr
  import Ipv4
  import Numerals
  import Paths
  import Text

  // ------------------------------------------------ records that render

  predicate CamouflageOk(c: Camouflage) {
    c.enabled ==> c.secret != ""
  }

  lemma PkiPathNonEmpty(d: Dirs, name: string, file: string)
    requires file != ""
    ensures PkiPath(d, name, file) != ""
  {
    hide Paths.Join;
    Paths.JoinNonEmpty(Paths.Join(d.pkiDir, name), file);
  }

  lemma PkiPathsNonEmpty(d: Dirs, name: string)
    ensures PkiPath(d, name, "server.pem") != "" && PkiPath(d, name, "server.key") != ""
    ensures PkiPath(d, name, "ca.pem") != ""
  {
    hide PkiPath;
    PkiPathNonEmpty(d, name, "server.pem");
    PkiPathNonEmpty(d, name, "server.key");
    PkiPathNonEmpty(d, name, "ca.pem");
  }

  lemma NoPoolNoBlock(s: string)
    requires Cidr.ParseCidr(s).Some?
    ensures s != ""
  {
    hide Ipv4.ParseQuad, Numerals.Read;
  }

  /**
   * Exactly the records that render: a name, an IPv4 pool, and a secret when
   * camouflage is on. Nothing else can fail.
   */
  lemma RendersIff(d: Dirs, rec: Instance)
    ensures Rendered(d, rec).Some? <==>
              !Text.Blank(rec.name) && Cidr.ParseCidr(rec.poolCidr).Some? && CamouflageOk(rec.camouflage)
  {
    hide PkiPath, Cidr.ParseCidr, Text.Blank, EntriesBefore, EntriesAfter, PortEntries, Print, TunName, Paths.Join,
         Paths.PerUserDir, HostOnly, ParseListenPort;
    PkiPathsNonEmpty(d, rec.name);
    if Cidr.ParseCidr(rec.poolCidr).Some? {
      NoPoolNoBlock(rec.poolCidr);
    }
  }

  // ------------------------------------------------ calls that succeed

  /**
   * CreateInstance succeeds exactly for a new name, an IPv4 pool, camouflage with
   * a secret, and a host that can go into a server certificate unless there is
   * one already; a process that does not start is no error.
   */
  lemma CreateInstanceSucceedsIff(d: Dirs, w: State, req: InstanceRequest, o: Outside)
    ensures CreateInstancePlan(d, w, req, o).error.None? <==>
              var rec := NewInstance(req);
              && rec.name != "" && rec.name !in w.mem.instances
              && Cidr.ParseCidr(req.poolCidr).Some? && CamouflageOk(rec.camouflage)
              && var host := HostOnly(rec.publicEndpoint);
                 || (rec.name in w.disk.serverCert && rec.name in w.disk.serverKey)
                 || forall i | 0 <= i < |host| :: host[i] as int < 128
  {
    hide Rendered, Cidr.ParseCidr, Text.Trim, SyncPins, StartInstance, EnsureCa, Flush, CamouflageOk, OrAuth,
         OrString, Ascii, ServerCertThere, HostOnly;
    var rec := NewInstance(req);
    AsciiMeans(HostOnly(rec.publicEndpoint));
    ServerThere(w.disk, rec.name);
    Text.TrimmedName(req.name);
    RendersIff(d, rec);
    if Cidr.ParseCidr(req.poolCidr).Some? {
      NoPoolNoBlock(req.poolCidr);
    }
  }

  lemma AsciiMeans(s: string)
    ensures Ascii(s) <==> forall i | 0 <= i < |s| :: s[i] as int < 128
  {
  }

  lemma ServerThere(disk: Disk, name: string)
    ensures ServerCertThere(disk, name) <==> name in disk.serverCert && name in disk.serverKey
  {
  }

  /**
   * A created instance is stored as asked, without clients, with a CA when it checks
   * certificates, and is served exactly when enabled and started.
   */
  lemma CreateInstanceServes(d: Dirs, w: State, req: InstanceRequest, o: Outside)
    requires Steady(d, w) && AllServing(d, See(w), false) && CreateInstancePlan(d, w, req, o).error.None?
    ensures var rec := NewInstance(req);
            var v := Exec(w, CreateInstancePlan(d, w, req, o).steps);
            && v.mem == PutInstance(w.mem, rec) && ClientsOf(v.mem, rec.name) == map[]
            && (UsesCert(rec.authMode) ==> CaLoads(v.disk, rec.name))
            && v.disk.certs == w.disk.certs
            && (Alive(v, rec.name) <==> rec.enabled && o.starts)
  {
    hide *;
    var rec := NewInstance(req);
    var v := Exec(w, CreateInstancePlan(d, w, req, o).steps);
    SteadyParts(d, w);
    CreateInstanceCases(d, w, req, o);
    CreateInstanceKeeps(d, w, req, o);
    CertsKept(w, CreateInstancePlan(d, w, req, o).steps);
    CreateInstanceSteady(d, w, req, o);
    SoundShape(d, w, rec.name);
    NoClients(w.mem, rec);
    CaThere(w.mem, v, rec);
    SeeCreate(d, w, req, o);
    var wanted := UsesCert(rec.authMode) || req.createCaIfEmpty;
    var crl := if wanted then SeededCrl(w.disk, rec.name) else w.disk.crl;
    SeenUnknown(w, rec.name);
    UnknownDown(d, See(w), rec.name, false);
    CreatedUp(See(w), rec, crl, Rendered(d, rec).value, o.starts);
    SeenUp(v, rec.name);
  }

  lemma CertsKept(w: State, steps: seq<Step>)
    requires Within(steps, STORE + {InPasswords})
    ensures Exec(w, steps).disk.certs == w.disk.certs
  {
    hide *;
    WithinLeaves(w, steps, STORE + {InPasswords});
    StoreLeaves(w, Exec(w, steps));
  }

  lemma CaThere(before: StoreData, v: State, rec: Instance)
    requires v.mem == PutInstance(before, rec) && CaSeeded(v)
    ensures UsesCert(rec.authMode) ==> CaLoads(v.disk, rec.name)
  {
    hide UsesCert;
  }

  lemma SeenUnknown(w: State, n: string)
    ensures n !in w.mem.instances ==> n !in See(w).instances
  {
  }

  lemma SeenUp(v: State, n: string)
    ensures Up(See(v), n) == Alive(v, n)
  {
  }

  lemma CreatedUp(v: View, rec: Instance, crl: map<string, set<int>>, text: string, starts: bool)
    requires !Up(v, rec.name)
    ensures Up(AfterCreate(v, rec, crl, text, starts), rec.name) <==> rec.enabled && starts
  {
    hide Bound;
  }

  // ------------------------------------------------ a first instance with a first user

  /** A pool printed as address, slash and prefix length reads back as itself. */
  lemma CidrRoundTrip(q: Ipv4.Quad, n: nat)
    requires n <= 32
    ensures Cidr.ParseCidr(Ipv4.ShowQuad(q) + "/" + Numerals.Show(n, Numerals.Ten)) == Some(Cidr.Block(q, n))
  {
    hide Ipv4.ShowQuad, Ipv4.ParseQuad, Numerals.Read, Text.Split;
    Ipv4.QuadRoundTrip(q);
    Numerals.ReadOfShow(n, Numerals.Ten);
    NoSlashInQuad(q);
    NoSlashInNumber(n);
    hide Numerals.Show;
    var a, b := Ipv4.ShowQuad(q), Numerals.Show(n, Numerals.Ten);
    Text.SplitCons(a, b, '/');
    Text.SplitWhole(b, '/');
    assert a + "/" + b == a + ['/'] + b;
  }

  lemma NoSlashInNumber(n: nat)
    ensures '/' !in Numerals.Show(n, Numerals.Ten)
  {
    var s := Numerals.Show(n, Numerals.Ten);
    forall i | 0 <= i < |s| ensures s[i] != '/' {
      assert Numerals.IsDigit(s[i], Numerals.Ten);
    }
  }

  lemma NoSlashInQuad(q: Ipv4.Quad)
    ensures '/' !in Ipv4.ShowQuad(q)
  {
    NoSlashInNumber(q.a);
    NoSlashInNumber(q.b);
    NoSlashInNumber(q.c);
    NoSlashInNumber(q.d);
    Ipv4.QuadText(q);
    hide Numerals.Show, Ipv4.ShowQuad;
  }

  function Pool(q: Ipv4.Quad, n: nat): string {
    Ipv4.ShowQuad(q) + "/" + Numerals.Show(n, Numerals.Ten)
  }

  function FirstRequest(name: string, q: Ipv4.Quad, n: nat): InstanceRequest {
    InstanceRequest(name, "", None, 0, None, Pool(q, n), "", "", "", Cert, None, [], [], None, false)
  }

  function FirstPeer(cn: string, ip: Ipv4.Quad): ClientRequest {
    ClientRequest("", cn, Cert, Ipv4.ShowQuad(ip), "")
  }

  function Starting(serial: nat, pem: string): Outside {
    Outside([], [], true, serial, pem, pem, pem, pem, pem, pem, None)
  }

  lemma AddressPinned(q: Ipv4.Quad)
    ensures !Unpinned(Ipv4.ShowQuad(q)) && PinFor(Ipv4.ShowQuad(q)).Some?
  {
    hide Ipv4.ParseQuad;
    Ipv4.QuadRoundTrip(q);
    Ipv4.QuadTrimmed(q);
    Text.TrimmedIsFixed(Ipv4.ShowQuad(q));
    PinIsTheAddress(Ipv4.ShowQuad(q));
  }

  // The state of a host on which the daemon has never run.
  function Blank(nextPid: nat, disk: Disk): State {
    State(EMPTY_STORE, disk, map[], nextPid, map[])
  }

  predicate Untouched(disk: Disk) {
    && disk.state.None? && disk.conf == map[] && disk.revoked == map[] && disk.crl == map[] && disk.caKey == map[]
    && disk.certs == map[]
  }

  /**
   * On an untouched host any pool gives a first instance that is running, and then a
   * first user with a certificate and a pin.
   */
  lemma FirstUser(d: Dirs, disk: Disk, nextPid: nat, name: string, q: Ipv4.Quad, n: nat, cn: string, ip: Ipv4.Quad,
                  serial: nat, pem: string)
    requires Untouched(disk) && n <= 32 && OneLineDirs(d)
    requires name != "" && Text.Trimmed(name) && Text.NL !in name && GoodName(cn) && Text.Trimmed(cn)
    ensures var o, w := Starting(serial, pem), Blank(nextPid, disk);
            var events := [ApiCall(FirstCall(name, q, n), o), ApiCall(SecondCall(name, cn, ip), o)];
            && Healthy(d, w) && IsRun(d, w, events) && CrashFree(events)
            && var v := After(d, w, events);
               && Healthy(d, v) && Alive(v, name)
               && cn in ClientsOf(v.mem, name)
               && ClientsOf(v.mem, name)[cn].certSerial == Numerals.Hex(serial)
               && Slot(name, cn) in v.disk.pins
               && v.procs[name].bound == ["tcp-port = 443", "udp-port = 443"]
  {
    hide *;
    var o, w := Starting(serial, pem), Blank(nextPid, disk);
    var a, b := FirstCall(name, q, n), SecondCall(name, cn, ip);
    StartingParts(serial, pem);
    FirstStep(d, disk, nextPid, name, q, n, o);
    NextOfCall(d, w, a, o);
    var u := Next(d, w, ApiCall(a, o));
    SecondStep(d, u, name, cn, ip, o);
    NextOfCall(d, u, b, o);
    TwoEvents(d, w, ApiCall(a, o), ApiCall(b, o));
    FirstListens(d, Next(d, u, ApiCall(b, o)), name, q, n);
  }

  // What the first instance has bound.
  lemma FirstListens(d: Dirs, v: State, name: string, q: Ipv4.Quad, n: nat)
    requires Healthy(d, v) && Alive(v, name) && name in v.mem.instances
    requires InstanceAsAsked(FirstRequest(name, q, n), v.mem.instances[name])
    ensures v.procs[name].bound == ["tcp-port = 443", "udp-port = 443"]
  {
    hide Steady, AllServing, CleanStore, See, PortOf, ListenLines, Pool, Text.Trim;
    BoundAsAsked(d, v, name, 443);
    DefaultPort();
    Unlistened(v.mem.instances[name], q, n, name);
  }

  lemma DefaultPort()
    ensures PortOf(":443", 443)
  {
    hide PortOf;
    WrittenPorts("", 443);
    assert Numerals.Show(443, Numerals.Ten) == "443" by { ShowDefault(); }
    assert "" + ":" + "443" == ":443";
  }

  lemma ShowDefault()
    ensures Numerals.Show(443, Numerals.Ten) == "443"
  {
    assert Numerals.Show(44, Numerals.Ten) == "44";
  }

  lemma Unlistened(rec: Instance, q: Ipv4.Quad, n: nat, name: string)
    requires InstanceAsAsked(FirstRequest(name, q, n), rec)
    ensures rec.listen == ":443"
    ensures ListenLines(rec, 443) == ["tcp-port = 443", "udp-port = 443"]
  {
    hide Pool, Numerals.ShowInt;
    Text.TrimmedIsFixed("");
    assert Numerals.ShowInt(443) == "443" by { ShowDefaultInt(); }
    assert "tcp-port = " + "443" == "tcp-port = 443" && "udp-port = " + "443" == "udp-port = 443";
  }

  lemma ShowDefaultInt()
    ensures Numerals.ShowInt(443) == "443"
  {
    hide Numerals.Show;
    ShowDefault();
  }

  lemma StartingParts(serial: nat, pem: string)
    ensures var o := Starting(serial, pem);
            o.firstOrder == [] && o.secondOrder == [] && o.starts && o.serial == serial
  {
  }

  function FirstCall(name: string, q: Ipv4.Quad, n: nat): Request {
    CreateInstance(FirstRequest(name, q, n))
  }

  function SecondCall(name: string, cn: string, ip: Ipv4.Quad): Request {
    CreateClient(name, FirstPeer(cn, ip))
  }

  // Files, records and processes all agree, and no record hides a listener.
  ghost predicate Healthy(d: Dirs, v: State) {
    Steady(d, v) && AllServing(d, See(v), true) && CleanStore(d, v.mem.instances)
  }

  lemma CallHealthy(d: Dirs, w: State, r: Request, o: Outside)
    requires Healthy(d, w) && Admissible(w, r, o) && CleanAsk(d, w, r)
    ensures Healthy(d, Exec(w, Plan(d, w, r, o).steps))
  {
    hide Steady, AllServing, CleanStore, See, Plan, Exec, Admissible, CleanAsk, Sound, Synced;
    SteadyParts(d, w);
    CallSteady(d, w, r, o);
    CallServing(d, w, r, o, true);
  }

  lemma FirstStep(d: Dirs, disk: Disk, nextPid: nat, name: string, q: Ipv4.Quad, n: nat, o: Outside)
    requires Untouched(disk) && n <= 32 && OneLineDirs(d) && o.firstOrder == [] && o.secondOrder == [] && o.starts
    requires name != "" && Text.Trimmed(name) && Text.NL !in name
    ensures var w := Blank(nextPid, disk);
            var v := Exec(w, Plan(d, w, FirstCall(name, q, n), o).steps);
            && Healthy(d, w) && Admissible(w, FirstCall(name, q, n), o) && Healthy(d, v)
            && name in v.mem.instances && v.mem.instances[name].authMode == Cert
            && ClientsOf(v.mem, name) == map[] && CaLoads(v.disk, name) && v.disk.certs == map[]
            && Alive(v, name) && InstanceAsAsked(FirstRequest(name, q, n), v.mem.instances[name])
  {
    hide Steady, AllServing, CleanStore, InstanceAsAsked, Clean, See, Plan, Exec, Admissible, OneLineDirs, Text.Trimmed,
         FirstRequest, Alive, ClientsOf, CaLoads, Untouched;
    var w := Blank(nextPid, disk);
    var a := FirstCall(name, q, n);
    BlankSteady(d, nextPid, disk);
    FreshServing(d, w, true);
    FreshServing(d, w, false);
    NothingStored(d, w);
    FirstAdmissible(w, disk, nextPid, a, o);
    FirstClean(d, name, q, n);
    CallHealthy(d, w, a, o);
    FirstInstance(d, w, name, q, n, o);
    FirstStored(d, w, name, q, n, o);
  }

  lemma SecondStep(d: Dirs, u: State, name: string, cn: string, ip: Ipv4.Quad, o: Outside)
    requires Healthy(d, u) && o.firstOrder == [] && o.secondOrder == []
    requires name in u.mem.instances && ClientsOf(u.mem, name) == map[] && CaLoads(u.disk, name) && Alive(u, name)
    requires u.disk.certs == map[] && GoodName(cn) && Text.Trimmed(cn)
    ensures var v := Exec(u, Plan(d, u, SecondCall(name, cn, ip), o).steps);
            && Admissible(u, SecondCall(name, cn, ip), o) && Healthy(d, v) && Alive(v, name)
            && cn in ClientsOf(v.mem, name)
            && ClientsOf(v.mem, name)[cn].certSerial == Numerals.Hex(o.serial)
            && Slot(name, cn) in v.disk.pins && v.mem.instances == u.mem.instances
  {
    hide Healthy, Exec, CreateClientPlan, Admissible, Text.Trimmed, GoodName, Alive, ClientsOf, CaLoads, FirstPeer,
         Numerals.Hex;
    SecondAdmissible(u, name, SecondCall(name, cn, ip), o);
    CallHealthy(d, u, SecondCall(name, cn, ip), o);
    FirstClient(u, name, cn, ip, o);
  }

  lemma NothingStored(d: Dirs, w: State)
    requires w.mem.instances == map[]
    ensures CleanStore(d, w.mem.instances)
  {
  }

  lemma FirstClean(d: Dirs, name: string, q: Ipv4.Quad, n: nat)
    requires OneLineDirs(d) && name != "" && Text.Trimmed(name) && Text.NL !in name
    ensures Clean(d, NewInstance(FirstRequest(name, q, n)))
  {
    hide Hides, NothingHidden, ConfigOf, Text.Trim, Pool, OneLineDirs, Text.IsSpace;
    Text.TrimmedIsFixed(name);
    Constants();
    CleanIff(d, NewInstance(FirstRequest(name, q, n)));
  }

  lemma BlankSteady(d: Dirs, nextPid: nat, disk: Disk)
    requires Untouched(disk)
    ensures Steady(d, Blank(nextPid, disk)) && disk.certs == map[]
  {
    hide Steady;
    EmptyIsSteady(d, nextPid, disk);
  }

  lemma FirstAdmissible(w: State, disk: Disk, nextPid: nat, r: Request, o: Outside)
    requires w == Blank(nextPid, disk) && disk.certs == map[] && o.firstOrder == [] && o.secondOrder == []
    ensures Admissible(w, r, o) && w.mem.instances == map[]
  {
    assert Enumerates([], {});
    assert ClientsOf(w.mem, Target(r)).Keys == {};
  }

  lemma SecondAdmissible(u: State, name: string, r: Request, o: Outside)
    requires r.CreateClient? && r.name == name && ClientsOf(u.mem, name) == map[] && u.disk.certs == map[]
    requires o.firstOrder == [] && o.secondOrder == []
    ensures Admissible(u, r, o)
  {
    assert Enumerates([], {});
    assert ClientsOf(u.mem, Target(r)).Keys == {};
  }

  lemma NextOfCall(d: Dirs, w: State, r: Request, o: Outside)
    requires Admissible(w, r, o)
    ensures Possible(d, w, ApiCall(r, o)) && Next(d, w, ApiCall(r, o)) == Exec(w, Plan(d, w, r, o).steps)
  {
    hide Plan, Exec, Admissible;
  }

  lemma TwoEvents(d: Dirs, w: State, a: Event, b: Event)
    requires Possible(d, w, a) && Possible(d, Next(d, w, a), b) && a.ApiCall? && b.ApiCall?
    ensures IsRun(d, w, [a, b]) && CrashFree([a, b])
    ensures After(d, w, [a, b]) == Next(d, Next(d, w, a), b)
  {
    hide Possible, Next;
    var u := Next(d, w, a);
    var v := Next(d, u, b);
    assert [a, b][1..] == [b] && [b][1..] == [];
    assert IsRun(d, v, []) && After(d, v, []) == v;
    assert IsRun(d, u, [b]) && After(d, u, [b]) == v;
  }

  lemma FirstInstance(d: Dirs, w: State, name: string, q: Ipv4.Quad, n: nat, o: Outside)
    requires Steady(d, w) && AllServing(d, See(w), false)
    requires w.mem.instances == map[] && w.disk.certs == map[] && o.starts && n <= 32
    requires name != "" && Text.Trimmed(name)
    ensures var v := Exec(w, Plan(d, w, FirstCall(name, q, n), o).steps);
            && name in v.mem.instances && v.mem.instances[name].authMode == Cert
            && ClientsOf(v.mem, name) == map[] && CaLoads(v.disk, name) && v.disk.certs == map[]
            && Alive(v, name) && CreateInstancePlan(d, w, FirstRequest(name, q, n), o).error.None?
  {
    hide Steady, CreateInstancePlan, Exec, Cidr.ParseCidr, Text.Trim, CaLoads, Alive, ClientsOf, AllServing, See;
    var req := FirstRequest(name, q, n);
    Text.TrimmedIsFixed(name);
    CidrRoundTrip(q, n);
    CreateInstanceSucceedsIff(d, w, req, o);
    CreateInstanceServes(d, w, req, o);
  }

  lemma FirstStored(d: Dirs, w: State, name: string, q: Ipv4.Quad, n: nat, o: Outside)
    requires Steady(d, w) && Admissible(w, FirstCall(name, q, n), o)
    requires CreateInstancePlan(d, w, FirstRequest(name, q, n), o).error.None? && Text.Trimmed(name)
    ensures var v := Exec(w, Plan(d, w, FirstCall(name, q, n), o).steps);
            name in v.mem.instances && InstanceAsAsked(FirstRequest(name, q, n), v.mem.instances[name])
  {
    hide Steady, CreateInstancePlan, Exec, Text.Trim, Admissible, InstanceAsAsked;
    SteadyParts(d, w);
    Text.TrimmedIsFixed(name);
    CreateInstanceStores(d, w, FirstRequest(name, q, n), o);
  }

  lemma FirstClient(u: State, name: string, cn: string, ip: Ipv4.Quad, o: Outside)
    requires name in u.mem.instances && ClientsOf(u.mem, name) == map[] && CaLoads(u.disk, name) && Alive(u, name)
    requires GoodName(cn) && Text.Trimmed(cn)
    ensures CreateClientPlan(u, name, FirstPeer(cn, ip), o).error.None?
    ensures var v := Exec(u, CreateClientPlan(u, name, FirstPeer(cn, ip), o).steps);
            && Alive(v, name) && cn in ClientsOf(v.mem, name)
            && ClientsOf(v.mem, name)[cn].certSerial == Numerals.Hex(o.serial)
            && Slot(name, cn) in v.disk.pins && v.mem.instances == u.mem.instances
  {
    hide CreateClientPlan, Exec, Text.Trim, GoodName, CaLoads, Numerals.Hex, Ipv4.ShowQuad, PinFor, Unpinned, OrString;
    Text.TrimmedIsFixed(cn);
    AddressPinned(ip);
    CreateClientSucceedsIff(u, name, FirstPeer(cn, ip), o);
    UnpinnedIff(Ipv4.ShowQuad(ip));
    CreateClientStores(u, name, FirstPeer(cn, ip), o);
  }

  // ------------------------------------------------ a client that is refused too late

  // A common name that is no safe file name, and an address that is not IPv4.
  const NoFileName := ClientRequest("", "a/b", Cert, "", "")
  const NoAddress := ClientRequest("", "a", Cert, "x", "")

  lemma RefusedLate()
    ensures forall req | req == NoFileName || req == NoAddress ::
              && Text.Trim(req.commonName) != "" && req.authMode == Cert
              && !PinOk(Text.Trim(req.commonName), req.staticIp)
  {
    hide PinFor, GoodName, Unpinned, Text.Trim;
    Text.TrimmedIsFixed("a/b");
    Text.TrimmedIsFixed("a");
    UnsafeName();
    BadAddress();
  }

  lemma UnsafeName()
    ensures !GoodName("a/b")
  {
    hide Paths.ValidPerUserName;
    Paths.ValidPerUserNameExactly("a/b");
    assert "a/b"[1] == '/';
  }

  lemma BadAddress()
    ensures !Unpinned("x") && PinFor("x").None?
  {
    hide Ipv4.ParseQuad, Text.Trim;
    Text.TrimmedIsFixed("x");
  }

  /**
   * Right after the first instance was created, asking for a client with an unsafe
   * name or a bad address fails, and leaves a valid certificate to nobody.
   */
  lemma FailingClient(d: Dirs, disk: Disk, nextPid: nat, name: string, q: Ipv4.Quad, n: nat, serial: nat, pem: string,
                      req: ClientRequest)
    requires Untouched(disk) && n <= 32 && OneLineDirs(d)
    requires name != "" && Text.Trimmed(name) && Text.NL !in name
    requires req == NoFileName || req == NoAddress
    ensures var o, w := Starting(serial, pem), Blank(nextPid, disk);
            var u := Exec(w, Plan(d, w, FirstCall(name, q, n), o).steps);
            var call := CreateClientPlan(u, name, req, o);
            && Admissible(u, CreateClient(name, req), o) && call.error.Some?
            && Reckoned(u).unowned == {}
            && Reckoned(Exec(u, call.steps)).unowned == {Slot(name, Numerals.Hex(serial))}
  {
    hide *;
    var o, w := Starting(serial, pem), Blank(nextPid, disk);
    var u := Exec(w, Plan(d, w, FirstCall(name, q, n), o).steps);
    StartingParts(serial, pem);
    FirstStep(d, disk, nextPid, name, q, n, o);
    HealthyParts(d, u);
    SteadyParts(d, u);
    SteadyUnshared(d, u);
    SecondAdmissible(u, name, CreateClient(name, req), o);
    RefusedLate();
    IssuesButFails(u, name, req, o);
    CreateOrphansIff(d, u, name, req, o);
    NothingWritten(u);
  }

  lemma HealthyParts(d: Dirs, u: State)
    requires Healthy(d, u)
    ensures Steady(d, u)
  {
    hide Steady, AllServing, CleanStore, See;
  }

  lemma IssuesButFails(u: State, name: string, req: ClientRequest, o: Outside)
    requires name in u.mem.instances && u.mem.instances[name].authMode == Cert
    requires ClientsOf(u.mem, name) == map[] && CaLoads(u.disk, name)
    requires Text.Trim(req.commonName) != "" && req.authMode == Cert && !PinOk(Text.Trim(req.commonName), req.staticIp)
    ensures Issues(u, name, req) && !Completes(u, name, req, o)
    ensures CreateClientPlan(u, name, req, o).error.Some?
  {
    hide Text.Trim, PinFor, Unpinned, GoodName, CreateClientPlan, CaLoads, ClientsOf, PasswordOk;
    CreateClientSucceedsIff(u, name, req, o);
    UnpinnedIff(req.staticIp);
  }

  lemma NothingWritten(u: State)
    requires u.disk.certs == map[]
    ensures Reckoned(u).unowned == {}
  {
  }

  // ------------------------------------------------ a port that moves

  /** After a patch of the TCP port, a process of the instance that lives listens on that port. */
  lemma PatchMovesPort(d: Dirs, w: State, name: string, body: Body, o: Outside, m: nat)
    requires Healthy(d, w) && Admissible(w, PatchInstance(name, body), o) && CleanAsk(d, w, PatchInstance(name, body))
    requires At(body, "tcp_port") == Some(JNumber(m as real)) && m > 0
    requires PatchInstancePlan(d, w, name, body, o).error !in {Some(NotFound), Some(RenderFailed)}
    ensures var v := Exec(w, PatchInstancePlan(d, w, name, body, o).steps);
            Alive(v, name) ==>
              v.procs[name].bound != [] && v.procs[name].bound[0] == "tcp-port = " + Numerals.Show(m, Numerals.Ten)
  {
    hide *;
    var v := Exec(w, PatchInstancePlan(d, w, name, body, o).steps);
    HealthyParts(d, w);
    SteadyParts(d, w);
    CallHealthy(d, w, PatchInstance(name, body), o);
    CallPlan(d, w, PatchInstance(name, body), o);
    PatchInstanceStores(d, w, name, body, o);
    PortAsked(body, w.mem.instances[name], v.mem.instances[name], m);
    if Alive(v, name) {
      var p := SomePort(v.mem.instances[name].listen);
      HealthyListens(d, v, name, p);
      FirstLine(v.mem.instances[name], p, m);
    }
  }

  lemma PortAsked(body: Body, before: Instance, after: Instance, m: nat)
    requires AsAsked(body, before, after) && At(body, "tcp_port") == Some(JNumber(m as real))
    ensures after.tcpPort == m
  {
    hide At, TakesText, TakesFlag, TakesTexts, TakesCamouflage, TowardZero;
    WholeNumber(m, after.tcpPort);
  }

  lemma HealthyListens(d: Dirs, v: State, name: string, p: int)
    requires Healthy(d, v) && Alive(v, name) && name in v.mem.instances && PortOf(v.mem.instances[name].listen, p)
    ensures v.procs[name].bound == ListenLines(v.mem.instances[name], p)
  {
    hide Steady, AllServing, CleanStore, See, PortOf, ListenLines;
    BoundAsAsked(d, v, name, p);
  }

  lemma FirstLine(rec: Instance, p: int, m: nat)
    requires rec.tcpPort == m && m > 0
    ensures ListenLines(rec, p) != [] && ListenLines(rec, p)[0] == "tcp-port = " + Numerals.Show(m, Numerals.Ten)
  {
    hide Numerals.Show, Text.Split, Hidden;
  }
}
