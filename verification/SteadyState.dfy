/** What holds between calls in every run without a crash: files, records and certificates agree exactly. */
module SteadyState {
  import opened Wrappers
  import opened Records
  import opened Config
  import opened World
  import opened Plans
  import opened Durable
  import opened Crash
  import opened Recovery

  // Config files exist for exactly the stored instances, each the render of its record.
  ghost predicate ConfExact(d: Dirs, w: State) {
    && w.disk.conf.Keys == w.mem.instances.Keys
    && forall n | n in w.mem.instances :: Some(w.disk.conf[n]) == Rendered(d, w.mem.instances[n])
  }

  predicate PinExact(pins: map<Slot, string>, slot: Slot, ip: string) {
    && (slot in pins <==> !Unpinned(ip))
    && (slot in pins ==> Some(pins[slot]) == PinFor(ip))
  }

  // A stored client has a pin file exactly when it has an address, and it is the right one.
  predicate PinsExact(w: State) {
    forall n, cn | n in w.mem.clients && cn in w.mem.clients[n] ::
      PinExact(w.disk.pins, Slot(n, cn), w.mem.clients[n][cn].staticIp)
  }

  ghost predicate CrlExact(w: State) {
    forall n: string :: CrlOf(w.disk, n) == Numbers(RevokedOf(w.disk, n))
  }

  // Whoever has a CA has a CRL file, and every instance that checks certificates has a CA.
  ghost predicate CaSeeded(w: State) {
    && (forall n: string | CaLoads(w.disk, n) :: n in w.disk.crl)
    && (forall n | n in w.mem.instances && UsesCert(w.mem.instances[n].authMode) :: CaLoads(w.disk, n))
  }

  predicate SerialLive(w: State, n: string, cn: string)
    requires n in w.mem.clients && cn in w.mem.clients[n]
  {
    var serial := w.mem.clients[n][cn].certSerial;
    serial != "" ==>
      && serial !in RevokedOf(w.disk, n)
      && forall other | other in w.mem.clients[n] && other != cn :: w.mem.clients[n][other].certSerial != serial
  }

  // No stored client holds a revoked certificate, and no two share one.
  predicate SerialsLive(w: State) {
    forall n, cn | n in w.mem.clients && cn in w.mem.clients[n] :: SerialLive(w, n, cn)
  }

  ghost predicate Steady(d: Dirs, w: State) {
    && Sound(d, w) && Synced(w)
    && ConfExact(d, w) && PinsExact(w)
    && CrlExact(w) && CaSeeded(w) && SerialsLive(w)
  }

  lemma SteadyParts(d: Dirs, w: State)
    requires Steady(d, w)
    ensures Sound(d, w) && Synced(w)
    ensures ConfExact(d, w) && PinsExact(w) && CrlExact(w) && CaSeeded(w) && SerialsLive(w)
  {
  }

  lemma EmptyIsSteady(d: Dirs, nextPid: nat, disk: Disk)
    requires disk.state.None? && disk.conf == map[] && disk.revoked == map[] && disk.crl == map[] && disk.caKey == map[]
    ensures Steady(d, State(EMPTY_STORE, disk, map[], nextPid, map[]))
  {
    assert Numbers({}) == {};
  }

  lemma CompletedSound(d: Dirs, w: State, r: Request, o: Outside)
    requires Sound(d, w) && Synced(w) && Admissible(w, r, o)
    ensures var v := Exec(w, Plan(d, w, r, o).steps); Sound(d, v) && Synced(v)
  {
    hide Plan, SafePlan, Exec, Admissible, Sound;
    var steps := Plan(d, w, r, o).steps;
    var post := Exec(w, steps).mem;
    PlanSafe(d, w, r, o);
    SafePrefix(d, w, steps, |steps|, w.disk.state, post, Lost(r, w.mem, post));
    assert steps[..|steps|] == steps;
  }

  // ------------------------------------------------ rewriting what is already there

  function WithConf(w: State, n: string, text: string): State {
    w.(disk := w.disk.(conf := w.disk.conf[n := text]))
  }

  function Committed(w: State, data: StoreData): State {
    w.(mem := data, disk := w.disk.(state := Some(data), tmp := None))
  }

  ghost predicate PinsPresent(pins: map<Slot, string>, clients: map<string, Client>, n: string) {
    forall cn | HasPin(clients, cn) :: PinRight(pins, clients, Slot(n, cn))
  }

  lemma PinsKept(before: map<Slot, string>, after: map<Slot, string>, clients: map<string, Client>, n: string,
      order: seq<string>)
    requires PinsSynced(before, after, clients, n, order) && PinsPresent(before, clients, n)
    ensures after == before
  {
    hide HasPin;
    forall slot: Slot
      ensures slot in before <==> slot in after
      ensures slot in before ==> before[slot] == after[slot]
    {
      assert PinsSynced(before, after, clients, n, order);
      if slot.instance == n && slot.key in order && HasPin(clients, slot.key) {
        assert PinRight(before, clients, Slot(n, slot.key)) && PinRight(after, clients, slot);
      } else {
        assert SameAt(before, after, slot);
      }
    }
    assert after.Keys == before.Keys;
  }

  /** When the pins are already there, renderAndWrite only rewrites the config file. */
  lemma ConfigInPlace(d: Dirs, w: State, mem: StoreData, rec: Instance, order: seq<string>)
    requires Rendered(d, rec).Some? && Pinnable(ClientsOf(mem, rec.name))
    requires PinsPresent(w.disk.pins, ClientsOf(mem, rec.name), rec.name)
    ensures WriteConfig(d, mem, rec, order).error.None?
    ensures Exec(w, WriteConfig(d, mem, rec, order).steps) == WithConf(w, rec.name, Rendered(d, rec).value)
  {
    hide Rendered, PinsPresent, PinsSynced, Pinnable, WriteConfig, Exec;
    WriteConfigResult(d, w, mem, rec, order);
    PinsKept(w.disk.pins, Exec(w, WriteConfig(d, mem, rec, order).steps).disk.pins, ClientsOf(mem, rec.name),
        rec.name, order);
  }

  lemma SteadyPins(d: Dirs, w: State, n: string)
    requires Sound(d, w) && Synced(w) && PinsExact(w)
    ensures Pinnable(ClientsOf(w.mem, n)) && PinsPresent(w.disk.pins, ClientsOf(w.mem, n), n)
  {
    hide GoodName, PinFor, Unpinned, Rendered, IssuedKept, RevokedIssued, CrlWithin;
    RecordFacts(d, w.mem, w.issued, n);
  }

  lemma FlushResult(w: State, data: StoreData)
    ensures Exec(w, Flush(data)) == Committed(w, data)
  {
    hide Exec, Started, Reloaded, Stopped;
    ExecThree(w, SetMemory(data), WriteTmp(data), RenameTmp);
  }

  // Nothing that the pins, the CRL and the client records depend on has changed.
  predicate SameClients(w: State, v: State) {
    && v.mem.clients == w.mem.clients && v.disk.pins == w.disk.pins
    && v.disk.revoked == w.disk.revoked && v.disk.crl == w.disk.crl
    && v.disk.caCert == w.disk.caCert && v.disk.caKey == w.disk.caKey
  }

  lemma SameClientsSteady(w: State, v: State)
    requires SameClients(w, v) && PinsExact(w) && CrlExact(w) && SerialsLive(w)
    ensures PinsExact(v) && CrlExact(v) && SerialsLive(v)
  {
    hide PinExact, Numbers;
    forall n: string ensures CrlOf(v.disk, n) == Numbers(RevokedOf(v.disk, n)) {
      assert CrlOf(w.disk, n) == Numbers(RevokedOf(w.disk, n));
    }
    forall n, cn | n in v.mem.clients && cn in v.mem.clients[n] ensures SerialLive(v, n, cn) {
      assert SerialLive(w, n, cn);
    }
  }

  // ------------------------------------------------ steps that do not matter here

  // Steps that touch certificates, their history, passwords, server certificates and processes only.
  predicate Side(s: Step) {
    || s.WriteCert? || s.WriteKey? || s.NoteIssued? || s.WritePasswd? || s.WriteServerCert? || s.WriteServerKey?
    || s.StartProcess? || s.StopProcess? || s.Hangup?
  }

  predicate AllSide(steps: seq<Step>) {
    forall i | 0 <= i < |steps| :: Side(steps[i])
  }

  // Everything the steady state speaks about.
  predicate SameCore(w: State, v: State) {
    && v.mem == w.mem
    && v.disk.state == w.disk.state && v.disk.tmp == w.disk.tmp
    && v.disk.conf == w.disk.conf && v.disk.pins == w.disk.pins
    && v.disk.caCert == w.disk.caCert && v.disk.caKey == w.disk.caKey
    && v.disk.revoked == w.disk.revoked && v.disk.crl == w.disk.crl
  }

  lemma SideStep(w: State, s: Step)
    requires Side(s)
    ensures SameCore(w, Apply(w, s))
  {
    hide Started, Reloaded, Stopped;
    ProcessFrame(w, s);
  }

  lemma CoreInTurn(a: State, b: State, c: State)
    requires SameCore(a, b) && SameCore(b, c)
    ensures SameCore(a, c)
  {
  }

  lemma {:induction false} SideKeepsCore(w: State, steps: seq<Step>)
    requires AllSide(steps)
    ensures SameCore(w, Exec(w, steps))
    decreases |steps|
  {
    hide Apply, SameCore, Side;
    if steps == [] {
      CoreItself(w);
    } else {
      SideStep(w, steps[0]);
      SideKeepsCore(Apply(w, steps[0]), steps[1..]);
      CoreInTurn(w, Apply(w, steps[0]), Exec(w, steps));
    }
  }

  lemma CoreItself(w: State)
    ensures SameCore(w, w)
  {
  }

  lemma CoreClients(w: State, v: State)
    requires SameCore(w, v)
    ensures SameClients(w, v)
    ensures v.mem == w.mem && v.disk.conf == w.disk.conf && v.disk.crl == w.disk.crl
    ensures v.disk.caCert == w.disk.caCert && v.disk.caKey == w.disk.caKey
  {
  }

  lemma SameCoreSteady(d: Dirs, w: State, v: State)
    requires SameCore(w, v)
    requires ConfExact(d, w) && PinsExact(w) && CrlExact(w) && CaSeeded(w) && SerialsLive(w)
    ensures ConfExact(d, v) && PinsExact(v) && CrlExact(v) && CaSeeded(v) && SerialsLive(v)
  {
    hide Rendered, PinsExact, CrlExact, SerialsLive, SameCore, SameClients;
    CoreClients(w, v);
    SameClientsSteady(w, v);
  }
}
