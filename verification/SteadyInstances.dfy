/** The calls on instances keep the steady state. */
module SteadyInstances {
  import opened Wrappers
  import opened Records
  import opened Config
  import opened World
  import opened Plans
  import opened Durable
  import opened Crash
  import opened Recovery
  import opened SteadyState
  import Processes

  // ------------------------------------------------ storing a record

  lemma SoundShape(d: Dirs, w: State, n: string)
    requires Sound(d, w) && Synced(w)
    ensures Shape(w.mem)
    ensures n in w.mem.instances ==> n in w.mem.clients && w.mem.instances[n].name == n
    ensures n !in w.mem.instances ==> n !in w.mem.clients
  {
    hide Rendered, GoodClient, IssuedKept, RevokedIssued, CrlWithin;
  }

  lemma PutInstanceClients(data: StoreData, rec: Instance)
    requires rec.name in data.clients
    ensures PutInstance(data, rec).clients == data.clients
    ensures forall n: string :: ClientsOf(PutInstance(data, rec), n) == ClientsOf(data, n)
  {
  }

  // Starting an instance whose config and pins are in place changes no file.
  lemma StartInPlace(d: Dirs, w: State, mem: StoreData, rec: Instance, order: seq<string>, starts: bool, alive: bool)
    requires Rendered(d, rec).Some? && Pinnable(ClientsOf(mem, rec.name))
    requires PinsPresent(w.disk.pins, ClientsOf(mem, rec.name), rec.name)
    requires rec.name in w.disk.conf && Some(w.disk.conf[rec.name]) == Rendered(d, rec)
    ensures SameCore(w, Exec(w, StartInstance(d, mem, rec, order, starts, alive).steps))
  {
    hide Rendered, PinsPresent, Pinnable, WriteConfig, Exec, SameCore;
    var conf, s := WriteConfig(d, mem, rec, order), StartProcess(rec.name, starts);
    ConfigInPlace(d, w, mem, rec, order);
    assert w.disk.conf[rec.name := Rendered(d, rec).value] == w.disk.conf;
    ExecAppend(w, conf.steps, [s]);
    SideKeepsCore(Exec(w, conf.steps), [s]);
  }

  // Config, store, and then processes only.
  lemma StoreResult(u: State, u1: State, u2: State, after: StoreData, conf: seq<Step>, process: seq<Step>)
    requires Exec(u, conf) == u1 && u2 == Committed(u1, after) && SameCore(u2, Exec(u2, process))
    ensures SameCore(u2, Exec(u, conf + (Flush(after) + process)))
  {
    hide *;
    ExecAppend(u, conf, Flush(after) + process);
    FlushResult(u1, after);
    ExecAppend(u1, Flush(after), process);
  }

  // What storing a record whose config is in place changes.
  lemma StoredParts(u: State, rec: Instance, text: string)
    ensures var v := Committed(WithConf(u, rec.name, text), PutInstance(u.mem, rec));
            && v.mem.instances == u.mem.instances[rec.name := rec] && v.disk.conf == u.disk.conf[rec.name := text]
            && v.disk.pins == u.disk.pins && v.disk.revoked == u.disk.revoked && v.disk.crl == u.disk.crl
            && v.disk.caCert == u.disk.caCert && v.disk.caKey == u.disk.caKey
            && v.mem == PutInstance(u.mem, rec)
  {
  }

  lemma StoredConfExact(d: Dirs, u: State, v: State, rec: Instance, text: string)
    requires ConfExact(d, u) && CaSeeded(u) && Rendered(d, rec) == Some(text)
    requires UsesCert(rec.authMode) ==> CaLoads(u.disk, rec.name)
    requires v.mem.instances == u.mem.instances[rec.name := rec] && v.disk.conf == u.disk.conf[rec.name := text]
    requires v.disk.caCert == u.disk.caCert && v.disk.caKey == u.disk.caKey && v.disk.crl == u.disk.crl
    ensures ConfExact(d, v) && CaSeeded(v)
  {
    hide Rendered, UsesCert;
    assert v.disk.conf.Keys == v.mem.instances.Keys;
    forall n: string ensures CaLoads(v.disk, n) == CaLoads(u.disk, n) {
    }
  }

  // ------------------------------------------------ PatchInstance

  /** A patch whose record renders changes its record and its config and nothing else on disk or in memory. */
  lemma PatchResult(d: Dirs, w: State, name: string, body: Body, o: Outside)
    requires Sound(d, w) && Synced(w) && PinsExact(w) && name in w.mem.instances
    requires Rendered(d, Patched(w.mem.instances[name], body)).Some?
    ensures var rec := Patched(w.mem.instances[name], body);
            SameCore(Committed(WithConf(w, name, Rendered(d, rec).value), PutInstance(w.mem, rec)),
                     Exec(w, PatchInstancePlan(d, w, name, body, o).steps))
  {
    hide Rendered, Exec, WriteConfig, StartInstance, Flush, PutInstance, PatchInstancePlan, Patched, ListenersDiffer,
         WithConf, Committed, Pinnable, PinsPresent, SameCore, Sound, Synced, PinsExact;
    var rec := Patched(w.mem.instances[name], body);
    var text, after := Rendered(d, rec).value, PutInstance(w.mem, rec);
    SoundShape(d, w, name);
    Processes.PatchKeepsName(w.mem.instances[name], body);
    PutInstanceClients(w.mem, rec);
    SteadyPins(d, w, name);
    ConfigInPlace(d, w, w.mem, rec, o.firstOrder);
    var process := Processes.PatchPlanParts(d, w, name, body, o);
    var u2 := Committed(WithConf(w, name, text), after);
    StoredParts(w, rec, text);
    PatchProcess(d, u2, after, rec, o, Alive(w, name), process);
    StoreResult(w, WithConf(w, name, text), u2, after, WriteConfig(d, w.mem, rec, o.firstOrder).steps, process);
  }

  lemma PatchProcess(d: Dirs, u: State, mem: StoreData, rec: Instance, o: Outside, alive: bool, process: seq<Step>)
    requires Rendered(d, rec).Some? && Pinnable(ClientsOf(mem, rec.name))
    requires PinsPresent(u.disk.pins, ClientsOf(mem, rec.name), rec.name)
    requires rec.name in u.disk.conf && Some(u.disk.conf[rec.name]) == Rendered(d, rec)
    requires var again := StartInstance(d, mem, rec, o.secondOrder, o.starts, false);
             var start := StartInstance(d, mem, rec, o.secondOrder, o.starts, alive);
             || process == [StopProcess(rec.name)]
             || process == [StopProcess(rec.name)] + again.steps
             || process == start.steps || process == start.steps + [Hangup(rec.name)]
    ensures SameCore(u, Exec(u, process))
  {
    hide Rendered, PinsPresent, Pinnable, StartInstance, Exec, SameCore;
    var again := StartInstance(d, mem, rec, o.secondOrder, o.starts, false);
    var start := StartInstance(d, mem, rec, o.secondOrder, o.starts, alive);
    var stop, hangup := [StopProcess(rec.name)], [Hangup(rec.name)];
    SideKeepsCore(u, stop);
    var s := Exec(u, stop);
    CoreParts(u, s);
    if process == stop + again.steps {
      ExecAppend(u, stop, again.steps);
      StartInPlace(d, s, mem, rec, o.secondOrder, o.starts, false);
      CoreInTurn(u, s, Exec(s, again.steps));
    } else if process != stop {
      StartInPlace(d, u, mem, rec, o.secondOrder, o.starts, alive);
      ExecAppend(u, start.steps, hangup);
      SideKeepsCore(Exec(u, start.steps), hangup);
      CoreInTurn(u, Exec(u, start.steps), Exec(u, start.steps + hangup));
    }
  }

  lemma CoreParts(w: State, v: State)
    requires SameCore(w, v)
    ensures v.disk.conf == w.disk.conf && v.disk.pins == w.disk.pins && v.mem == w.mem
  {
  }

  lemma PatchKeepsAuth(w: State, name: string, body: Body)
    requires CaSeeded(w) && name in w.mem.instances
    ensures UsesCert(Patched(w.mem.instances[name], body).authMode) ==> CaLoads(w.disk, name)
  {
    hide UsesCert;
  }

  lemma SameClientsStored(w: State, v: State)
    requires v.mem.clients == w.mem.clients
    requires v.disk.pins == w.disk.pins && v.disk.revoked == w.disk.revoked && v.disk.crl == w.disk.crl
    requires v.disk.caCert == w.disk.caCert && v.disk.caKey == w.disk.caKey
    ensures SameClients(w, v)
  {
  }

  /** After a patch, whatever becomes of the process, files and records agree. */
  lemma PatchSteady(d: Dirs, w: State, name: string, body: Body, o: Outside)
    requires Steady(d, w) && name in w.mem.instances
    requires Rendered(d, Patched(w.mem.instances[name], body)).Some?
    ensures var v := Exec(w, PatchInstancePlan(d, w, name, body, o).steps);
            ConfExact(d, v) && PinsExact(v) && CrlExact(v) && CaSeeded(v) && SerialsLive(v)
  {
    hide *;
    var rec := Patched(w.mem.instances[name], body);
    var text := Rendered(d, rec).value;
    var stored := Committed(WithConf(w, name, text), PutInstance(w.mem, rec));
    SteadyParts(d, w);
    SoundShape(d, w, name);
    Processes.PatchKeepsName(w.mem.instances[name], body);
    PatchKeepsAuth(w, name, body);
    PutInstanceClients(w.mem, rec);
    StoredParts(w, rec, text);
    StoredConfExact(d, w, stored, rec, text);
    SameClientsStored(w, stored);
    SameClientsSteady(w, stored);
    PatchResult(d, w, name, body, o);
    SameCoreSteady(d, stored, Exec(w, PatchInstancePlan(d, w, name, body, o).steps));
  }

  // ------------------------------------------------ CreateInstance

  function AfterCa(w: State, name: string, o: Outside): State {
    if CaLoads(w.disk, name) then w
    else w.(disk := w.disk.(caCert := w.disk.caCert[name := o.caCert],
                            caKey := w.disk.caKey[name := o.caKey],
                            crl := w.disk.crl[name := {}]))
  }

  lemma EnsureCaResult(w: State, name: string, o: Outside)
    ensures Exec(w, EnsureCa(w.disk, name, o)) == AfterCa(w, name, o)
  {
    hide Exec, Apply;
    if CaLoads(w.disk, name) {
      ExecNone(w);
    } else {
      ExecThree(w, WriteCaCert(name, o.caCert), WriteCaKey(name, o.caKey), WriteCrl(name, {}));
      ApplySeed(w, name, o);
    }
  }

  lemma ApplySeed(w: State, name: string, o: Outside)
    ensures var disk := w.disk.(caCert := w.disk.caCert[name := o.caCert],
                                caKey := w.disk.caKey[name := o.caKey],
                                crl := w.disk.crl[name := {}]);
            Apply(Apply(Apply(w, WriteCaCert(name, o.caCert)), WriteCaKey(name, o.caKey)), WriteCrl(name, {}))
            == w.(disk := disk)
  {
    hide Started, Reloaded, Stopped;
  }

  // An instance without a CA has revoked nothing.
  lemma NoCaNothingRevoked(d: Dirs, w: State, name: string)
    requires Sound(d, w) && !CaLoads(w.disk, name)
    ensures RevokedOf(w.disk, name) == {}
  {
    hide GoodData, HexKey, CrlWithin;
    assert forall h | h in RevokedOf(w.disk, name) :: Slot(name, h) in w.issued;
  }

  lemma AfterCaParts(w: State, name: string, o: Outside)
    ensures var v := AfterCa(w, name, o);
            && v.mem == w.mem
            && v.disk.conf == w.disk.conf && v.disk.pins == w.disk.pins && v.disk.revoked == w.disk.revoked
            && (forall n: string | n != name :: CrlOf(v.disk, n) == CrlOf(w.disk, n))
            && (!CaLoads(w.disk, name) ==> CrlOf(v.disk, name) == {})
            && (CaLoads(w.disk, name) ==> v == w)
  {
  }

  lemma AfterCaSeeded(w: State, name: string, o: Outside)
    requires CaSeeded(w)
    ensures CaSeeded(AfterCa(w, name, o))
  {
    hide UsesCert;
  }

  lemma AfterCaCrl(d: Dirs, w: State, name: string, o: Outside)
    requires Sound(d, w) && CrlExact(w)
    ensures CrlExact(AfterCa(w, name, o))
  {
    hide Sound, Numbers, AfterCa, RevokedOf, CrlOf;
    var v := AfterCa(w, name, o);
    AfterCaParts(w, name, o);
    if !CaLoads(w.disk, name) {
      NoCaNothingRevoked(d, w, name);
      NoNumbers();
      forall n: string ensures CrlOf(v.disk, n) == Numbers(RevokedOf(v.disk, n)) {
        assert CrlOf(w.disk, n) == Numbers(RevokedOf(w.disk, n));
        SameRevoked(w.disk, v.disk, n);
      }
    }
  }

  lemma SameRevoked(a: Disk, b: Disk, n: string)
    requires a.revoked == b.revoked
    ensures RevokedOf(a, n) == RevokedOf(b, n)
  {
  }

  /** Creating a CA never disturbs what another instance relies on. */
  lemma EnsureCaSteady(d: Dirs, w: State, name: string, o: Outside)
    requires Steady(d, w) && name !in w.mem.instances
    ensures var v := AfterCa(w, name, o);
            ConfExact(d, v) && PinsExact(v) && CrlExact(v) && CaSeeded(v) && SerialsLive(v)
  {
    SteadyParts(d, w);
    hide Steady, Sound, Rendered, PinExact, SerialLive, CrlExact, CaSeeded, AfterCa;
    var v := AfterCa(w, name, o);
    AfterCaParts(w, name, o);
    AfterCaSeeded(w, name, o);
    AfterCaCrl(d, w, name, o);
    forall n, cn | n in v.mem.clients && cn in v.mem.clients[n] ensures SerialLive(v, n, cn) {
      assert SerialLive(w, n, cn);
      SerialLiveSame(w, v, n, cn);
    }
  }

  lemma SerialLiveSame(w: State, v: State, n: string, cn: string)
    requires n in w.mem.clients && cn in w.mem.clients[n] && v.mem == w.mem && v.disk.revoked == w.disk.revoked
    ensures SerialLive(v, n, cn) == SerialLive(w, n, cn)
  {
  }

  lemma NoClients(data: StoreData, rec: Instance)
    requires rec.name !in data.clients
    ensures ClientsOf(data, rec.name) == map[] && ClientsOf(PutInstance(data, rec), rec.name) == map[]
    ensures PutInstance(data, rec).clients == data.clients[rec.name := map[]]
  {
  }

  lemma NoClientsNoPins(pins: map<Slot, string>, n: string)
    ensures Pinnable(map[]) && PinsPresent(pins, map[], n)
  {
  }

  /** A create whose record renders adds its record and its config and nothing else. */
  lemma CreateResult(d: Dirs, u: State, rec: Instance, o: Outside, alive: bool)
    requires Rendered(d, rec).Some? && rec.name !in u.mem.clients
    ensures var conf := WriteConfig(d, u.mem, rec, o.firstOrder);
            var after := PutInstance(u.mem, rec);
            var start := if rec.enabled then StartInstance(d, after, rec, o.secondOrder, o.starts, alive).steps else [];
            SameCore(Committed(WithConf(u, rec.name, Rendered(d, rec).value), after),
                     Exec(u, conf.steps + (Flush(after) + start)))
  {
    hide Rendered, Exec, WriteConfig, StartInstance, Flush, PutInstance, WithConf, Committed, Pinnable, PinsPresent,
         SameCore;
    var after := PutInstance(u.mem, rec);
    var conf := WriteConfig(d, u.mem, rec, o.firstOrder);
    var start := if rec.enabled then StartInstance(d, after, rec, o.secondOrder, o.starts, alive).steps else [];
    var u2 := Committed(WithConf(u, rec.name, Rendered(d, rec).value), after);
    NoClients(u.mem, rec);
    NoClientsNoPins(u.disk.pins, rec.name);
    NoClientsNoPins(u2.disk.pins, rec.name);
    ConfigInPlace(d, u, u.mem, rec, o.firstOrder);
    StoredParts(u, rec, Rendered(d, rec).value);
    if rec.enabled {
      StartInPlace(d, u2, after, rec, o.secondOrder, o.starts, alive);
    } else {
      ExecNone(u2);
      CoreItself(u2);
    }
    StoreResult(u, WithConf(u, rec.name, Rendered(d, rec).value), u2, after, conf.steps, start);
  }

  lemma CreateSteady(d: Dirs, u: State, rec: Instance)
    requires Rendered(d, rec).Some? && rec.name !in u.mem.instances && rec.name !in u.mem.clients
    requires ConfExact(d, u) && PinsExact(u) && CrlExact(u) && CaSeeded(u) && SerialsLive(u)
    requires UsesCert(rec.authMode) ==> CaLoads(u.disk, rec.name)
    ensures var v := Committed(WithConf(u, rec.name, Rendered(d, rec).value), PutInstance(u.mem, rec));
            ConfExact(d, v) && PinsExact(v) && CrlExact(v) && CaSeeded(v) && SerialsLive(v)
  {
    hide *;
    var text := Rendered(d, rec).value;
    var v := Committed(WithConf(u, rec.name, text), PutInstance(u.mem, rec));
    NoClients(u.mem, rec);
    StoredParts(u, rec, text);
    StoredConfExact(d, u, v, rec, text);
    MoreClientsSteady(u, v, rec.name);
  }

  lemma MoreClientsSteady(w: State, v: State, n: string)
    requires v.mem.clients == w.mem.clients[n := map[]]
    requires v.disk.pins == w.disk.pins && v.disk.revoked == w.disk.revoked && v.disk.crl == w.disk.crl
    requires PinsExact(w) && SerialsLive(w) && CrlExact(w)
    ensures PinsExact(v) && SerialsLive(v) && CrlExact(v)
  {
    hide PinExact, Numbers, SerialLive;
    forall m: string ensures CrlOf(v.disk, m) == Numbers(RevokedOf(v.disk, m)) {
      assert CrlOf(w.disk, m) == Numbers(RevokedOf(w.disk, m));
    }
    forall m, cn | m in v.mem.clients && cn in v.mem.clients[m] ensures SerialLive(v, m, cn) {
      assert m != n && SerialLive(w, m, cn);
      SerialLiveSameClients(w, v, m, cn);
    }
  }

  lemma SerialLiveSameClients(w: State, v: State, n: string, cn: string)
    requires n in w.mem.clients && cn in w.mem.clients[n] && v.disk.revoked == w.disk.revoked
    requires n in v.mem.clients && v.mem.clients[n] == w.mem.clients[n]
    ensures SerialLive(v, n, cn) == SerialLive(w, n, cn)
  {
  }

  lemma ServerCertSide(disk: Disk, rec: Instance, o: Outside)
    ensures AllSide(EnsureServerCert(disk, rec, o).steps)
  {
    hide HostOnly, Ascii;
  }

  lemma CreatePlanParts(d: Dirs, w: State, req: InstanceRequest, o: Outside)
    requires var rec := NewInstance(req); rec.name != "" && rec.name !in w.mem.instances && rec.poolCidr != ""
    ensures var rec := NewInstance(req);
            var ca := if UsesCert(rec.authMode) || req.createCaIfEmpty then EnsureCa(w.disk, rec.name, o) else [];
            var server := EnsureServerCert(w.disk, rec, o);
            var conf := WriteConfig(d, w.mem, rec, o.firstOrder);
            var after := PutInstance(w.mem, rec);
            var start := if rec.enabled then
                           StartInstance(d, after, rec, o.secondOrder, o.starts, Alive(w, rec.name)).steps
                         else [];
            var steps := CreateInstancePlan(d, w, req, o).steps;
            if server.error.None? && Rendered(d, rec).Some?
            then steps == (ca + server.steps) + (conf.steps + (Flush(after) + start))
            else steps == ca + server.steps
  {
    hide Rendered, WriteConfig, StartInstance, EnsureCa, EnsureServerCert, NewInstance, PutInstance, Flush, UsesCert;
    var rec := NewInstance(req);
    RenderedConfig(d, w.mem, rec, o.firstOrder);
  }

  /** A create call, failed or not, keeps the steady state. */
  lemma CreateInstanceSteady(d: Dirs, w: State, req: InstanceRequest, o: Outside)
    requires Steady(d, w)
    ensures var v := Exec(w, CreateInstancePlan(d, w, req, o).steps);
            ConfExact(d, v) && PinsExact(v) && CrlExact(v) && CaSeeded(v) && SerialsLive(v)
  {
    hide Rendered, Exec, Sound, Synced, ConfExact, PinsExact, CrlExact, CaSeeded, SerialsLive, EnsureCa, WriteConfig,
         StartInstance, Flush, PutInstance, NewInstance, EnsureServerCert, UsesCert, SameCore, WithConf, Committed,
         CaLoads;
    var rec := NewInstance(req);
    var plan := CreateInstancePlan(d, w, req, o);
    ExecNone(w);
    if rec.name != "" && rec.name !in w.mem.instances && rec.poolCidr != "" {
      var wanted := UsesCert(rec.authMode) || req.createCaIfEmpty;
      var ca := if wanted then EnsureCa(w.disk, rec.name, o) else [];
      var server := EnsureServerCert(w.disk, rec, o);
      var conf := WriteConfig(d, w.mem, rec, o.firstOrder);
      var after := PutInstance(w.mem, rec);
      var start := if rec.enabled then
                     StartInstance(d, after, rec, o.secondOrder, o.starts, Alive(w, rec.name)).steps
                   else [];
      hide CreateInstancePlan;
      CreatePlanParts(d, w, req, o);
      CaStage(d, w, rec, o, wanted);
      var u := Exec(w, ca + server.steps);
      if server.error.None? && Rendered(d, rec).Some? {
        ExecAppend(w, ca + server.steps, conf.steps + (Flush(after) + start));
        CreateResult(d, u, rec, o, Alive(w, rec.name));
        CreateSteady(d, u, rec);
        SameCoreSteady(d, Committed(WithConf(u, rec.name, Rendered(d, rec).value), after), Exec(w, plan.steps));
      }
    }
  }

  // CA and server certificate in place.
  lemma CaStage(d: Dirs, w: State, rec: Instance, o: Outside, wanted: bool)
    requires Steady(d, w) && rec.name !in w.mem.instances
    requires UsesCert(rec.authMode) ==> wanted
    ensures var u := Exec(w, (if wanted then EnsureCa(w.disk, rec.name, o) else [])
        + EnsureServerCert(w.disk, rec, o).steps);
            && u.mem == w.mem && rec.name !in u.mem.clients
            && (UsesCert(rec.authMode) ==> CaLoads(u.disk, rec.name))
            && ConfExact(d, u) && PinsExact(u) && CrlExact(u) && CaSeeded(u) && SerialsLive(u)
  {
    hide *;
    var ca := if wanted then EnsureCa(w.disk, rec.name, o) else [];
    var server := EnsureServerCert(w.disk, rec, o).steps;
    var u := Exec(w, ca);
    SteadyParts(d, w);
    ExecNone(w);
    EnsureCaResult(w, rec.name, o);
    EnsureCaSteady(d, w, rec.name, o);
    AfterCaParts(w, rec.name, o);
    AfterCaLoads(w, rec.name, o);
    SoundShape(d, w, rec.name);
    ExecAppend(w, ca, server);
    ServerCertSide(w.disk, rec, o);
    SideKeepsCore(u, server);
    SameCoreSteady(d, u, Exec(u, server));
    CoreLoads(u, Exec(u, server), rec.name);
  }

  lemma AfterCaLoads(w: State, name: string, o: Outside)
    ensures CaLoads(AfterCa(w, name, o).disk, name)
  {
  }

  lemma CoreLoads(w: State, v: State, name: string)
    requires SameCore(w, v)
    ensures CaLoads(v.disk, name) == CaLoads(w.disk, name) && v.mem == w.mem
  {
  }

  // ------------------------------------------------ DeleteInstance

  function AfterDelete(w: State, name: string): State {
    Committed(w.(disk := w.disk.(conf := w.disk.conf - {name})), DropInstance(w.mem, name))
  }

  lemma DeleteInstanceResult(w: State, name: string)
    requires name in w.mem.instances
    ensures SameCore(AfterDelete(w, name), Exec(w, DeleteInstancePlan(w, name).steps))
    ensures Exec(w, DeleteInstancePlan(w, name).steps).issued == w.issued
    ensures Exec(w, DeleteInstancePlan(w, name).steps).mem == DropInstance(w.mem, name)
  {
    hide Exec, Apply, Flush, DropInstance;
    var after := DropInstance(w.mem, name);
    var a, b := StopProcess(name), RemoveConf(name);
    ExecAppend(w, [a, b], Flush(after));
    ExecTwo(w, a, b);
    StopAndRemove(w, name);
    FlushResult(Apply(Apply(w, a), b), after);
  }

  lemma StopAndRemove(w: State, name: string)
    ensures var u := Apply(Apply(w, StopProcess(name)), RemoveConf(name));
            u == w.(procs := u.procs, disk := w.disk.(conf := w.disk.conf - {name}))
  {
  }

  lemma DeleteInstanceSteady(d: Dirs, w: State, name: string)
    requires Steady(d, w) && name in w.mem.instances
    ensures var v := Exec(w, DeleteInstancePlan(w, name).steps);
            ConfExact(d, v) && PinsExact(v) && CrlExact(v) && CaSeeded(v) && SerialsLive(v)
  {
    hide *;
    SteadyParts(d, w);
    DeleteInstanceResult(w, name);
    AfterDeleteSteady(d, w, name);
    SameCoreSteady(d, AfterDelete(w, name), Exec(w, DeleteInstancePlan(w, name).steps));
  }

  lemma AfterDeleteSteady(d: Dirs, w: State, name: string)
    requires ConfExact(d, w) && PinsExact(w) && CrlExact(w) && CaSeeded(w) && SerialsLive(w)
    ensures var v := AfterDelete(w, name);
            ConfExact(d, v) && PinsExact(v) && CrlExact(v) && CaSeeded(v) && SerialsLive(v)
  {
    hide Rendered, PinExact, Numbers, SerialLive;
    var v := AfterDelete(w, name);
    forall n: string ensures CrlOf(v.disk, n) == Numbers(RevokedOf(v.disk, n)) {
      assert CrlOf(w.disk, n) == Numbers(RevokedOf(w.disk, n));
    }
    forall n, cn | n in v.mem.clients && cn in v.mem.clients[n] ensures SerialLive(v, n, cn) {
      assert SerialLive(w, n, cn);
      SerialLiveSameClients(w, v, n, cn);
    }
  }
}
