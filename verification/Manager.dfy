/** The manager: every API call, written as the program writes it, takes exactly the steps of its plan. */
module Management {
  import opened Wrappers
  import opened Records
  import opened Config
  import opened World
  import opened Plans
  import opened Daemon
  import opened SteadyState
  import Numerals
  import Ocpasswd
  import Runs
  import Text

  // ------------------------------------------------ plans grow at the end

  lemma {:induction false} SyncPinsSnoc(clients: map<string, Client>, name: string, order: seq<string>, cn: string)
    ensures SyncPins(clients, name, order + [cn]) == SyncPins(clients, name, order) + SyncOne(clients, name, cn)
  {
    hide SyncOne;
    if order == [] {
      assert [] + [cn] == [cn] && [cn][1..] == [];
    } else {
      assert (order + [cn])[1..] == order[1..] + [cn];
      SyncPinsSnoc(clients, name, order[1..], cn);
    }
  }

  lemma {:induction false} ReconcileSnoc(d: Dirs, mem: StoreData, b: Boot, order: seq<string>, n: string)
    ensures ReconcilePlan(d, mem, b, order + [n]) == ReconcilePlan(d, mem, b, order) + ReconcileOne(d, mem, b, n)
  {
    hide ReconcileOne;
    if order == [] {
      assert [] + [n] == [n] && [n][1..] == [];
    } else {
      assert (order + [n])[1..] == order[1..] + [n];
      ReconcileSnoc(d, mem, b, order[1..], n);
    }
  }

  // ------------------------------------------------ what a component call means for the whole

  lemma AfterFiles(origin: State, journal: seq<Step>, w: State, steps: seq<Step>, disk: Disk)
    requires w == Exec(origin, journal) && AllFile(steps)
    requires disk == Exec(origin, journal + steps).disk
    ensures w.(disk := disk) == Exec(origin, journal + steps)
  {
    hide Exec, FileStep;
    ExecAppend(origin, journal, steps);
    FileStepsOnly(w, steps);
  }

  lemma AfterFlush(origin: State, journal: seq<Step>, w: State, data: StoreData)
    requires w == Exec(origin, journal)
    ensures w.(mem := data, disk := w.disk.(state := Some(data), tmp := None)) == Exec(origin, journal + Flush(data))
  {
    hide Exec;
    ExecAppend(origin, journal, Flush(data));
    ExecAppend(w, [SetMemory(data)], [WriteTmp(data)]);
    ExecAppend(w, [SetMemory(data)] + [WriteTmp(data)], [RenameTmp]);
    assert Flush(data) == [SetMemory(data)] + [WriteTmp(data)] + [RenameTmp];
    ExecOne(w, SetMemory(data));
    ExecOne(Apply(w, SetMemory(data)), WriteTmp(data));
    ExecOne(Apply(Apply(w, SetMemory(data)), WriteTmp(data)), RenameTmp);
  }

  lemma AfterStep(origin: State, journal: seq<Step>, w: State, s: Step)
    requires w == Exec(origin, journal)
    ensures Apply(w, s) == Exec(origin, journal + [s])
  {
    hide Exec, Apply;
    ExecAppend(origin, journal, [s]);
    ExecOne(w, s);
  }

  // What a supervisor does depends on the files and its own table only.
  lemma SupervisorView(w: State, v: State, name: string, starts: bool)
    requires v.disk == w.disk && v.procs == w.procs && v.nextPid == w.nextPid
    ensures Started(w, name, starts).procs == Started(v, name, starts).procs
    ensures Started(w, name, starts).nextPid == Started(v, name, starts).nextPid
    ensures Started(w, name, starts) == w.(procs := Started(w, name, starts).procs,
        nextPid := Started(w, name, starts).nextPid)
    ensures Reloaded(w, name) == w.(procs := Reloaded(v, name).procs) && Reloaded(v, name).nextPid == w.nextPid
    ensures Stopped(w, name) == w.(procs := Stopped(v, name).procs) && Stopped(v, name).nextPid == w.nextPid
  {
    hide Bound;
  }

  // Creating a CA does not touch the server certificate.
  lemma SameServerCert(w: State, ca: seq<Step>, name: string, o: Outside, v: State, rec: Instance)
    requires ca == EnsureCa(w.disk, name, o) || ca == []
    requires v == Exec(w, ca)
    ensures EnsureServerCert(v.disk, rec, o) == EnsureServerCert(w.disk, rec, o)
  {
    hide Exec, HostOnly, Ascii;
    ExecNone(w);
    if ca == EnsureCa(w.disk, name, o) && !CaLoads(w.disk, name) {
      ExecThree(w, WriteCaCert(name, o.caCert), WriteCaKey(name, o.caKey), WriteCrl(name, {}));
    }
  }

  lemma SameStartSteps(d: Dirs, mem: StoreData, rec: Instance, order: seq<string>, starts: bool, a: bool, b: bool)
    ensures StartInstance(d, mem, rec, order, starts, a).steps == StartInstance(d, mem, rec, order, starts, b).steps
  {
    hide WriteConfig;
  }

  // ------------------------------------------------ plans by cases

  // The process part of a patch, as Plans.PatchInstancePlan has it.
  function ConvergeCall(d: Dirs, w: State, mem: StoreData, name: string, before: Instance, rec: Instance,
      o: Outside): Call {
    if !rec.enabled then Call([StopProcess(name)], None)
    else if ListenersDiffer(before, rec) then
      var start := StartInstance(d, mem, rec, o.secondOrder, o.starts, Alive(Stopped(w, name), rec.name));
      Call([StopProcess(name)] + start.steps, start.error)
    else
      var start := StartInstance(d, mem, rec, o.secondOrder, o.starts, Alive(w, rec.name));
      Call(start.steps + (if start.error.None? then [Hangup(name)] else []), None)
  }

  lemma ConvergeSame(d: Dirs, w: State, v: State, mem: StoreData, name: string, before: Instance, rec: Instance,
      o: Outside)
    requires v.procs == w.procs
    ensures ConvergeCall(d, v, mem, name, before, rec, o) == ConvergeCall(d, w, mem, name, before, rec, o)
  {
    hide StartInstance, ListenersDiffer;
  }

  lemma PatchInstanceCases(d: Dirs, w: State, name: string, body: Body, o: Outside)
    requires name in w.mem.instances
    ensures var before := w.mem.instances[name];
            var rec := Patched(before, body);
            var after := PutInstance(w.mem, rec);
            var conf := WriteConfig(d, w.mem, rec, o.firstOrder);
            var process := ConvergeCall(d, w, after, name, before, rec, o);
            PatchInstancePlan(d, w, name, body, o) ==
              if conf.error.Some? then conf else Call(conf.steps + (Flush(after) + process.steps), process.error)
  {
    hide WriteConfig, StartInstance, ListenersDiffer, Patched, PutInstance, Flush;
  }

  function ForgetSteps(w: State, name: string, cn: string, mode: AuthMode): seq<Step> {
    (if UsesPassword(mode) then DeletePassword(w.disk, name, cn) else [])
    + (if GoodName(cn) then [RemovePin(Slot(name, cn))] else [])
    + Flush(DropClient(w.mem, name, cn))
  }

  lemma ForgetSame(w: State, v: State, name: string, cn: string, mode: AuthMode)
    requires v.disk.passwd == w.disk.passwd && v.mem == w.mem
    ensures ForgetSteps(v, name, cn, mode) == ForgetSteps(w, name, cn, mode)
  {
  }

  lemma DeleteClientCases(w: State, name: string, cn: string)
    requires cn in ClientsOf(w.mem, name)
    ensures var c := ClientsOf(w.mem, name)[cn];
            var revoke := Revoke(w.disk, name, c.certSerial);
            DeleteClientPlan(w, name, cn) ==
              if c.certSerial == "" then Call(ForgetSteps(w, name, cn, c.authMode), None)
              else if revoke.error.Some? then revoke
              else Call(revoke.steps + [Hangup(name)] + ForgetSteps(w, name, cn, c.authMode), None)
  {
    hide Revoke, DeletePassword, GoodName, DropClient, Flush;
  }

  // PatchClient once the record is changed.
  function PatchedCall(data: StoreData, secret: bool, name: string, cn: string, c: Client, o: Outside): Call {
    var password := if secret then Plans.SetPassword(name, o) else Nothing;
    var pin := PinCall(name, cn, c.staticIp);
    if password.error.Some? then password
    else if pin.error.Some? then Call(password.steps + pin.steps, pin.error)
    else if name in data.instances then Call(password.steps + pin.steps + Flush(PutClient(data, name, c)), None)
    else Call(password.steps + pin.steps, Some(NotFound))
  }

  lemma PatchClientCases(w: State, name: string, cn: string, body: Body, o: Outside)
    requires cn in ClientsOf(w.mem, name)
    ensures var c := PatchedClient(ClientsOf(w.mem, name)[cn], body);
            PatchClientPlan(w, name, cn, body, o)
            == PatchedCall(w.mem, NewPassword(body) != "" && UsesPassword(c.authMode), name, cn, c, o)
  {
    hide Flush, PinCall, Plans.SetPassword, World.PutClient, NewPassword, PatchedClient, UsesPassword;
  }

  // ------------------------------------------------ the manager

  class Manager {
    const dirs: Dirs
    const fs: Files
    const store: Store
    const sup: Supervisor
    const pki: Pki

    // The state the four objects hold together.
    ghost function Now(): State reads fs, store, sup, pki {
      State(store.Data(), fs.disk, sup.procs, sup.nextPid, pki.issued)
    }

    ghost predicate Valid() reads fs, store, sup, pki {
      && store.fs == fs && sup.fs == fs && pki.fs == fs
      && fs.Valid()
      && Now() == Exec(fs.origin, fs.journal)
    }

    // NewManager over a freshly opened store: the daemon has just come up.
    constructor (dirs: Dirs, disk: Disk, nextPid: nat, ghost issued: map<Slot, string>)
      ensures Valid() && this.dirs == dirs && fresh(fs) && fresh(store) && fresh(sup) && fresh(pki)
      ensures Now() == State(World.Open(disk), disk, map[], nextPid, issued) && fs.journal == []
    {
      this.dirs := dirs;
      var files := new Files(disk, State(World.Open(disk), disk, map[], nextPid, issued));
      var records := new Store.Open(files);
      var supervisor := new Supervisor(files, nextPid);
      var keys := new Pki(files, issued);
      fs, store, sup, pki := files, records, supervisor, keys;
      new;
      ExecNone(fs.origin);
    }

    method WritePerUserConfig(name: string, cn: string, ip: string) returns (err: Option<Error>)
      requires Valid()
      modifies fs
      ensures Valid() && err == PinCall(name, cn, ip).error
      ensures fs.journal == old(fs.journal) + PinCall(name, cn, ip).steps
    {
      hide Exec, PinFor, GoodName, Unpinned;
      if !GoodName(cn) {
        return Some(BadPin);
      }
      if Unpinned(ip) {
        err := RemoveOrWrite(RemovePin(Slot(name, cn)));
        return;
      }
      var text := PinFor(ip);
      if text.None? {
        return Some(BadPin);
      }
      err := RemoveOrWrite(WritePin(Slot(name, cn), text.value));
    }

    // One file operation that succeeds.
    method RemoveOrWrite(s: Step) returns (err: Option<Error>)
      requires Valid() && FileStep(s)
      modifies fs
      ensures Valid() && err == None && fs.journal == old(fs.journal) + [s]
    {
      hide Exec;
      ghost var w := Now();
      fs.Do(s);
      AfterFiles(fs.origin, old(fs.journal), w, [s], fs.disk);
      err := None;
    }

    method SyncPerUserConfigs(name: string, order: seq<string>)
      requires Valid()
      modifies fs
      ensures Valid() && fs.journal == old(fs.journal) + SyncPins(ClientsOf(store.Data(), name), name, order)
    {
      hide Exec, PinCall;
      var clients := if name in store.clients then store.clients[name] else map[];
      for i := 0 to |order|
        invariant Valid()
        invariant fs.journal == old(fs.journal) + SyncPins(clients, name, order[..i])
      {
        var cn := order[i];
        SyncPinsSnoc(clients, name, order[..i], cn);
        assert order[..i + 1] == order[..i] + [cn];
        if cn in clients && !Unpinned(clients[cn].staticIp) {
          var _ := WritePerUserConfig(name, clients[cn].commonName, clients[cn].staticIp);
        }
      }
      assert order[..|order|] == order;
    }

    method RenderAndWrite(rec: Instance, order: seq<string>) returns (err: Option<Error>)
      requires Valid()
      modifies fs
      ensures var c := WriteConfig(dirs, store.Data(), rec, order);
              Valid() && err == c.error && fs.journal == old(fs.journal) + c.steps
    {
      hide Exec, Render, ConfigOf;
      var rendered := PrintConfig(ConfigOf(dirs, rec));
      if rendered.None? {
        return Some(RenderFailed);
      }
      SyncPerUserConfigs(rec.name, order);
      err := RemoveOrWrite(WriteConf(rec.name, rendered.value));
    }

    method StartProcessOf(name: string, starts: bool) returns (ok: bool)
      requires Valid()
      modifies fs`journal, sup
      ensures Valid() && fs.journal == old(fs.journal) + [StartProcess(name, starts)]
      ensures ok == (old(Alive(Now(), name)) || starts)
    {
      hide Exec, Started;
      ghost var w, v := Now(), sup.View();
      ok := sup.Start(name, starts);
      SupervisorView(w, v, name, starts);
      AfterStep(fs.origin, old(fs.journal), w, StartProcess(name, starts));
    }

    method Reload(name: string)
      requires Valid()
      modifies fs`journal, sup
      ensures Valid() && fs.journal == old(fs.journal) + [Hangup(name)]
    {
      hide Exec, Reloaded;
      ghost var w, v := Now(), sup.View();
      var _ := sup.Reload(name);
      SupervisorView(w, v, name, false);
      AfterStep(fs.origin, old(fs.journal), w, Hangup(name));
    }

    method Stop(name: string)
      requires Valid()
      modifies fs`journal, sup
      ensures Valid() && fs.journal == old(fs.journal) + [StopProcess(name)]
      ensures sup.procs == old(sup.procs) - {name}
    {
      hide Exec;
      ghost var w, v := Now(), sup.View();
      sup.Stop(name);
      SupervisorView(w, v, name, false);
      AfterStep(fs.origin, old(fs.journal), w, StopProcess(name));
    }

    method StartInstance(rec: Instance, order: seq<string>, starts: bool) returns (err: Option<Error>)
      requires Valid()
      modifies fs, sup
      ensures var c := Plans.StartInstance(dirs, store.Data(), rec, order, starts, old(Alive(Now(), rec.name)));
              Valid() && err == c.error && fs.journal == old(fs.journal) + c.steps
    {
      hide Exec, WriteConfig;
      err := RenderAndWrite(rec, order);
      if err.Some? {
        return;
      }
      var ok := StartProcessOf(rec.name, starts);
      if !ok {
        return Some(StartFailed);
      }
    }

    // Journal and validity after the store has been flushed.
    ghost method Flushed(before: State, steps: seq<Step>)
      requires store.fs == fs && sup.fs == fs && pki.fs == fs && fs.Valid()
      requires before == Exec(fs.origin, steps)
      requires fs.journal == steps + Flush(store.Data())
      requires Now() == before.(mem := store.Data(), disk := before.disk.(state := Some(store.Data()), tmp := None))
      ensures Valid()
    {
      hide Exec;
      AfterFlush(fs.origin, steps, before, store.Data());
    }

    method CreateInstance(req: InstanceRequest, o: Outside) returns (err: Option<Error>)
      requires Valid()
      modifies fs, store, sup
      ensures var c := CreateInstancePlan(dirs, old(Now()), req, o);
              Valid() && err == c.error && fs.journal == old(fs.journal) + c.steps
    {
      hide Exec, Rendered, Prepare, Plans.StartInstance, Plans.EnsureCa, NewInstance, World.PutInstance, Flush;
      var rec := NewInstance(req);
      if rec.name == "" {
        return Some(NameRequired);
      }
      if rec.name in store.instances {
        return Some(AlreadyExists);
      }
      if rec.poolCidr == "" {
        return Some(PoolRequired);
      }
      CreateInstanceCases(dirs, Now(), req, o);
      hide CreateInstancePlan;
      err := Provision(rec, UsesCert(rec.authMode) || req.createCaIfEmpty, o);
    }

    // The part of CreateInstance after its checks: CA, server certificate, config, store, process.
    method Provision(rec: Instance, wanted: bool, o: Outside) returns (err: Option<Error>)
      requires Valid()
      modifies fs, store, sup
      ensures var ca := if wanted then Plans.EnsureCa(old(fs.disk), rec.name, o) else [];
              var prepare := Prepare(dirs, old(Now()), rec, o);
              var after := World.PutInstance(old(store.Data()), rec);
              var start := if rec.enabled then
                             Plans.StartInstance(dirs, after, rec, o.secondOrder, o.starts,
                                 old(Alive(Now(), rec.name))).steps
                           else [];
              && Valid() && err == prepare.error
              && fs.journal == old(fs.journal)
                               + if err.Some? then ca + prepare.steps else ca + prepare.steps + (Flush(after) + start)
    {
      hide Exec, Rendered, Plans.StartInstance, Plans.EnsureCa, World.PutInstance, Flush, Alive, UsesCert, Prepare;
      ghost var was, data := fs.journal, store.Data();
      ghost var ca := if wanted then Plans.EnsureCa(fs.disk, rec.name, o) else [];
      ghost var alive := Alive(Now(), rec.name);
      ghost var prepare := Prepare(dirs, Now(), rec, o);
      err := Secure(rec, wanted, o);
      assert fs.journal == was + (ca + prepare.steps) && store.Data() == data;
      if err.None? {
        Commit(rec, o);
        SameStartSteps(dirs, World.PutInstance(data, rec), rec, o.secondOrder, o.starts, false, alive);
      }
    }

    // CA, server certificate and config.
    method Secure(rec: Instance, wanted: bool, o: Outside) returns (err: Option<Error>)
      requires Valid()
      modifies fs
      ensures var ca := if wanted then Plans.EnsureCa(old(fs.disk), rec.name, o) else [];
              var prepare := Prepare(dirs, old(Now()), rec, o);
              Valid() && err == prepare.error && fs.journal == old(fs.journal) + (ca + prepare.steps)
    {
      hide Exec, Rendered, WriteConfig, Plans.EnsureCa, Plans.EnsureServerCert;
      ghost var before, was := Now(), fs.journal;
      ghost var ca := if wanted then Plans.EnsureCa(fs.disk, rec.name, o) else [];
      if wanted {
        EnsureCa(rec.name, o);
      }
      assert fs.journal == was + ca;
      ExecAppend(fs.origin, was, ca);
      SameServerCert(before, ca, rec.name, o, Now(), rec);
      err := EnsureServerCert(rec, o);
      if err.None? {
        err := RenderAndWrite(rec, o.firstOrder);
      }
    }

    method EnsureServerCert(rec: Instance, o: Outside) returns (err: Option<Error>)
      requires Valid()
      modifies fs
      ensures var c := Plans.EnsureServerCert(old(fs.disk), rec, o);
              Valid() && err == c.error && fs.journal == old(fs.journal) + c.steps
    {
      hide Exec;
      ghost var w := Now();
      err := pki.EnsureServerCert(rec, o);
      AfterFiles(fs.origin, old(fs.journal), w, Plans.EnsureServerCert(w.disk, rec, o).steps, fs.disk);
    }

    method Commit(rec: Instance, o: Outside)
      requires Valid()
      modifies fs, store, sup
      ensures var after := World.PutInstance(old(store.Data()), rec);
              var start := if rec.enabled then Plans.StartInstance(dirs, after, rec, o.secondOrder, o.starts,
                  false).steps else [];
              Valid() && fs.journal == old(fs.journal) + (Flush(after) + start)
    {
      hide Exec, Rendered, WriteConfig, Plans.StartInstance, World.PutInstance, Flush, Alive;
      PutRecord(rec);
      if rec.enabled {
        SameStartSteps(dirs, store.Data(), rec, o.secondOrder, o.starts, Alive(Now(), rec.name), false);
        var _ := StartInstance(rec, o.secondOrder, o.starts);
      }
    }

    method EnsureCa(name: string, o: Outside)
      requires Valid()
      modifies fs
      ensures Valid() && fs.journal == old(fs.journal) + Plans.EnsureCa(old(fs.disk), name, o)
    {
      hide Exec;
      ghost var w := Now();
      pki.EnsureCa(name, o);
      AfterFiles(fs.origin, old(fs.journal), w, Plans.EnsureCa(w.disk, name, o), fs.disk);
    }

    method PutRecord(rec: Instance)
      requires Valid()
      modifies fs, store
      ensures Valid() && store.Data() == World.PutInstance(old(store.Data()), rec)
      ensures fs.journal == old(fs.journal) + Flush(store.Data())
    {
      hide Exec;
      ghost var w := Now();
      store.PutInstance(rec);
      Flushed(w, old(fs.journal));
    }

    method PatchInstance(name: string, body: Body, o: Outside) returns (err: Option<Error>)
      requires Valid()
      modifies fs, store, sup
      ensures var c := PatchInstancePlan(dirs, old(Now()), name, body, o);
              Valid() && err == c.error && fs.journal == old(fs.journal) + c.steps
    {
      hide Exec, Rendered, WriteConfig, Patched, World.PutInstance, Flush, ConvergeCall;
      if name !in store.instances {
        return Some(NotFound);
      }
      var before := store.instances[name];
      var rec := ApplyInstancePatch(before, body);
      PatchInstanceCases(dirs, Now(), name, body, o);
      hide PatchInstancePlan;
      ghost var was := Now();
      err := RenderAndWrite(rec, o.firstOrder);
      if err.Some? {
        return;
      }
      PutRecord(rec);
      ConvergeSame(dirs, was, Now(), store.Data(), name, before, rec, o);
      err := Converge(name, before, rec, o);
    }

    // The last part of PatchInstance: stop, restart or reload.
    method Converge(name: string, before: Instance, rec: Instance, o: Outside) returns (err: Option<Error>)
      requires Valid()
      modifies fs, sup
      ensures var c := ConvergeCall(dirs, old(Now()), store.Data(), name, before, rec, o);
              Valid() && err == c.error && fs.journal == old(fs.journal) + c.steps
    {
      hide Exec, WriteConfig, Plans.StartInstance, ListenersDiffer;
      err := None;
      if !rec.enabled {
        Stop(name);
      } else if ListenersDiffer(before, rec) {
        Stop(name);
        err := StartInstance(rec, o.secondOrder, o.starts);
      } else {
        var failed := StartInstance(rec, o.secondOrder, o.starts);
        if failed.None? {
          Reload(name);
        }
      }
    }

    method DeleteInstance(name: string) returns (err: Option<Error>)
      requires Valid()
      modifies fs, store, sup
      ensures var c := DeleteInstancePlan(old(Now()), name);
              Valid() && err == c.error && fs.journal == old(fs.journal) + c.steps
    {
      hide Exec, Flush, DropInstance;
      ghost var was := DeleteInstancePlan(Now(), name);
      assert name in store.instances ==> was.error == None;
      if name !in store.instances {
        return Some(NotFound);
      }
      Stop(name);
      err := RemoveOrWrite(RemoveConf(name));
      ghost var w, steps := Now(), fs.journal;
      store.DeleteInstance(name);
      Flushed(w, steps);
      assert steps == old(fs.journal) + [StopProcess(name), RemoveConf(name)];
      assert DeleteInstancePlan(old(Now()), name) == was;
      assert was.steps == [StopProcess(name), RemoveConf(name)] + Flush(store.Data());
    }

    method SetPassword(name: string, o: Outside) returns (err: Option<Error>)
      requires Valid()
      modifies fs
      ensures var c := Plans.SetPassword(name, o);
              Valid() && err == c.error && fs.journal == old(fs.journal) + c.steps
    {
      hide Exec;
      if o.passwd.None? {
        return Some(PasswordTool);
      }
      err := RemoveOrWrite(WritePasswd(name, o.passwd.value));
    }

    // The password of a client being created.
    method SetNewPassword(mode: AuthMode, name: string, req: ClientRequest, o: Outside) returns (err: Option<Error>)
      requires Valid()
      modifies fs
      ensures var c := PasswordPart(mode, name, req, o);
              Valid() && err == c.error && fs.journal == old(fs.journal) + c.steps
    {
      hide Exec;
      if UsesPassword(mode) {
        if req.password == "" {
          return Some(PasswordRequired);
        }
        err := SetPassword(name, o);
      } else {
        err := None;
      }
    }

    method IssueClient(name: string, cn: string, o: Outside) returns (r: Option<Issued>)
      requires Valid() && !Text.Blank(cn)
      modifies fs, pki
      ensures var c := Issue(old(fs.disk), name, o);
              && Valid() && fs.journal == old(fs.journal) + c.steps
              && (r.Some? <==> c.error.None?) && (r.None? ==> c == Call([], Some(NoCa)))
              && (r.Some? ==> r.value.serial == Numerals.Hex(o.serial))
    {
      hide Exec, Numerals.Hex, Text.Blank;
      ghost var w := Now();
      r := pki.IssueClient(name, cn, o);
      if r.Some? {
        var files := Issue(w.disk, name, o).steps[..2];
        var note := Issue(w.disk, name, o).steps[2];
        assert Issue(w.disk, name, o).steps == files + [note];
        AfterIssue(fs.origin, old(fs.journal), w, files, note, fs.disk);
      } else {
        assert old(fs.journal) + [] == old(fs.journal);
      }
    }

    method PutPeer(name: string, c: Client) returns (ok: bool)
      requires Valid()
      modifies fs, store
      ensures Valid() && ok == (name in old(store.instances))
      ensures store.Data() == if ok then World.PutClient(old(store.Data()), name, c) else old(store.Data())
      ensures fs.journal == if ok then old(fs.journal) + Flush(store.Data()) else old(fs.journal)
    {
      hide Exec;
      ghost var w := Now();
      ok := store.PutClient(name, c);
      if ok {
        Flushed(w, old(fs.journal));
      }
    }

    method CreateClient(name: string, req: ClientRequest, o: Outside) returns (err: Option<Error>)
      requires Valid()
      modifies fs, store, pki
      ensures var c := CreateClientPlan(old(Now()), name, req, o);
              Valid() && err == c.error && fs.journal == old(fs.journal) + c.steps
    {
      hide Exec, Flush, PinCall, Issue, PasswordPart, World.PutClient, NewClient, OrAuth;
      if name !in store.instances {
        return Some(NotFound);
      }
      var cn := Text.Trim(req.commonName);
      if cn == "" {
        return Some(CommonNameRequired);
      }
      if name in store.clients && cn in store.clients[name] {
        return Some(AlreadyExists);
      }
      var mode := OrAuth(req.authMode, store.instances[name].authMode);
      CreateClientCases(Now(), name, req, o);
      Text.TrimmedName(req.commonName);
      hide CreateClientPlan, Text.Trim, Text.Blank;
      err := ProvisionClient(name, cn, mode, req, o);
    }

    // The part of CreateClient after its checks: certificate, password, pin, store.
    method ProvisionClient(name: string, cn: string, mode: AuthMode, req: ClientRequest, o: Outside)
        returns (err: Option<Error>)
      requires Valid() && name in store.instances && !Text.Blank(cn)
      modifies fs, store, pki
      ensures var issue := if UsesCert(mode) then Issue(old(fs.disk), name, o) else Nothing;
              var password := PasswordPart(mode, name, req, o);
              var pin := PinCall(name, cn, req.staticIp);
              var after := World.PutClient(old(store.Data()), name, NewClient(name, cn, mode, req, o));
              var c := if issue.error.Some? then issue
                       else if password.error.Some? then Call(issue.steps + password.steps, password.error)
                       else if pin.error.Some? then Call(issue.steps + password.steps + pin.steps, pin.error)
                       else Call(issue.steps + password.steps + pin.steps + Flush(after), None);
              Valid() && err == c.error && fs.journal == old(fs.journal) + c.steps
    {
      hide Exec, Flush, PinCall, Issue, PasswordPart, World.PutClient, Numerals.Hex, Text.Blank;
      ghost var was, data := fs.journal, store.Data();
      ghost var issue := if UsesCert(mode) then Issue(fs.disk, name, o) else Nothing;
      var serial := IssueFor(name, cn, mode, o);
      if serial.None? {
        return Some(NoCa);
      }
      var c := Client(OrString(req.displayName, cn), cn, name, mode, req.staticIp, true, false, serial.value);
      assert c == NewClient(name, cn, mode, req, o) && fs.journal == was + issue.steps && store.Data() == data;
      hide NewClient, UsesCert, OrString;
      err := SecureAndStore(mode, name, req, o, c);
    }

    // The certificate of a client being created: "" when its mode needs none, None without a CA.
    method IssueFor(name: string, cn: string, mode: AuthMode, o: Outside) returns (serial: Option<string>)
      requires Valid() && !Text.Blank(cn)
      modifies fs, pki
      ensures var issue := if UsesCert(mode) then Issue(old(fs.disk), name, o) else Nothing;
              && Valid() && fs.journal == old(fs.journal) + issue.steps
              && (serial.None? ==> issue == Call([], Some(NoCa)))
              && (serial.Some? ==>
                    issue.error.None? && serial.value == if UsesCert(mode) then Numerals.Hex(o.serial) else "")
    {
      hide Exec, Issue, Numerals.Hex, Text.Blank;
      if !UsesCert(mode) {
        return Some("");
      }
      var issued := IssueClient(name, cn, o);
      if issued.None? {
        return None;
      }
      serial := Some(issued.value.serial);
    }

    method SecureAndStore(mode: AuthMode, name: string, req: ClientRequest, o: Outside, c: Client)
        returns (err: Option<Error>)
      requires Valid() && name in store.instances
      modifies fs, store
      ensures var password := PasswordPart(mode, name, req, o);
              var pin := PinCall(name, c.commonName, c.staticIp);
              var call := if password.error.Some? then password
                          else if pin.error.Some? then Call(password.steps + pin.steps, pin.error)
                          else Call(password.steps + pin.steps + Flush(World.PutClient(old(store.Data()), name, c)),
                              None);
              Valid() && err == call.error && fs.journal == old(fs.journal) + call.steps
    {
      hide Exec, Flush, PinCall, PasswordPart, World.PutClient;
      err := SetNewPassword(mode, name, req, o);
      if err.None? {
        err := PinAndStore(name, c);
      }
    }

    method PinAndStore(name: string, c: Client) returns (err: Option<Error>)
      requires Valid() && name in store.instances
      modifies fs, store
      ensures var pin := PinCall(name, c.commonName, c.staticIp);
              && Valid() && err == pin.error
              && fs.journal == old(fs.journal) + (pin.steps + if err.Some? then []
                                                             else Flush(World.PutClient(old(store.Data()), name, c)))
    {
      hide Exec, Flush, PinCall, World.PutClient;
      err := WritePerUserConfig(name, c.commonName, c.staticIp);
      if err.None? {
        var _ := PutPeer(name, c);
      }
    }

    method PatchClient(name: string, cn: string, body: Body, o: Outside) returns (err: Option<Error>)
      requires Valid()
      modifies fs, store
      ensures var c := PatchClientPlan(old(Now()), name, cn, body, o);
              Valid() && err == c.error && fs.journal == old(fs.journal) + c.steps
    {
      hide Exec, Flush, PinCall, Plans.SetPassword, World.PutClient, NewPassword, PatchedClient, UsesPassword;
      if name !in store.clients || cn !in store.clients[name] {
        return Some(NotFound);
      }
      var c := PatchedClient(store.clients[name][cn], body);
      PatchClientCases(Now(), name, cn, body, o);
      hide PatchClientPlan;
      var secret := NewPassword(body) != "" && UsesPassword(c.authMode);
      err := SecurePatched(secret, name, cn, c, o);
    }

    // The part of PatchClient after the record is changed: password, pin, store.
    method SecurePatched(secret: bool, name: string, cn: string, c: Client, o: Outside) returns (err: Option<Error>)
      requires Valid()
      modifies fs, store
      ensures var call := PatchedCall(old(store.Data()), secret, name, cn, c, o);
              Valid() && err == call.error && fs.journal == old(fs.journal) + call.steps
    {
      hide Exec, Flush, PinCall, Plans.SetPassword, World.PutClient;
      if secret {
        err := SetPassword(name, o);
        if err.Some? {
          return;
        }
      }
      err := WritePerUserConfig(name, cn, c.staticIp);
      if err.Some? {
        return;
      }
      var ok := PutPeer(name, c);
      if !ok {
        return Some(NotFound);
      }
    }

    method RevokeClient(name: string, serial: string) returns (ok: bool)
      requires Valid()
      modifies fs
      ensures var c := Revoke(old(fs.disk), name, serial);
              && Valid() && fs.journal == old(fs.journal) + c.steps
              && c.error == (if ok then None else Some(NoCa))
              && fs.disk.passwd == old(fs.disk).passwd
    {
      hide Exec, Numbers;
      ghost var w := Now();
      ok := pki.RevokeClient(name, serial);
      AfterFiles(fs.origin, old(fs.journal), w, Revoke(w.disk, name, serial).steps, fs.disk);
    }

    method DeleteUser(name: string, cn: string)
      requires Valid()
      modifies fs
      ensures Valid() && fs.journal == old(fs.journal) + DeletePassword(old(fs.disk), name, cn)
    {
      hide Exec;
      var before := PasswdOf(fs.disk, name);
      var file := new Ocpasswd.PasswordFile(before);
      file.DeleteUser(cn);
      if cn in Ocpasswd.FileUsers(before) {
        var _ := RemoveOrWrite(WritePasswd(name, file.content.value));
      }
    }

    method DeleteClient(name: string, cn: string) returns (err: Option<Error>)
      requires Valid()
      modifies fs, store, sup
      ensures var c := DeleteClientPlan(old(Now()), name, cn);
              Valid() && err == c.error && fs.journal == old(fs.journal) + c.steps
    {
      hide Exec, Flush, Revoke, DeletePassword, DropClient, GoodName;
      if name !in store.clients || cn !in store.clients[name] {
        return Some(NotFound);
      }
      var c := store.clients[name][cn];
      DeleteClientCases(Now(), name, cn);
      ghost var was, before := Now(), fs.journal;
      hide DeleteClientPlan;
      if c.certSerial != "" {
        var ok := RevokeClient(name, c.certSerial);
        if !ok {
          return Some(NoCa);
        }
        Reload(name);
      }
      assert fs.disk.passwd == was.disk.passwd && store.Data() == was.mem;
      ForgetSame(was, Now(), name, cn, c.authMode);
      hide ForgetSteps;
      Forget(name, cn, c.authMode);
      err := None;
      assert fs.journal == before + DeleteClientPlan(was, name, cn).steps;
    }

    // The part of DeleteClient after the revocation: password, pin, store.
    method Forget(name: string, cn: string, mode: AuthMode)
      requires Valid()
      modifies fs, store
      ensures Valid() && fs.journal == old(fs.journal) + ForgetSteps(old(Now()), name, cn, mode)
    {
      hide Exec, Flush, DeletePassword, DropClient, GoodName;
      ghost var was, password := fs.journal, if UsesPassword(mode) then DeletePassword(fs.disk, name, cn) else [];
      ghost var unpin := if GoodName(cn) then [RemovePin(Slot(name, cn))] else [];
      if UsesPassword(mode) {
        DeleteUser(name, cn);
      }
      assert fs.journal == was + password;
      if GoodName(cn) {
        var _ := RemoveOrWrite(RemovePin(Slot(name, cn)));
      }
      assert fs.journal == was + (password + unpin);
      ghost var w, steps := Now(), fs.journal;
      store.DeleteClient(name, cn);
      Flushed(w, steps);
    }

    method Reconcile(b: Boot)
      requires Valid()
      modifies fs, sup
      ensures Valid() && fs.journal == old(fs.journal) + ReconcilePlan(dirs, store.Data(), b, b.order)
    {
      hide Exec, Plans.StartInstance;
      ghost var data := store.Data();
      for i := 0 to |b.order|
        invariant Valid()
        invariant fs.journal == old(fs.journal) + ReconcilePlan(dirs, data, b, b.order[..i])
      {
        var n := b.order[i];
        ReconcileSnoc(dirs, data, b, b.order[..i], n);
        assert b.order[..i + 1] == b.order[..i] + [n];
        if n in store.instances && store.instances[n].enabled {
          var rec := store.instances[n];
          SameStartSteps(dirs, data, rec, ClientOrder(b, n), n in b.starts, Alive(Now(), rec.name), false);
          var _ := StartInstance(store.instances[n], ClientOrder(b, n), n in b.starts);
        }
      }
      assert b.order[..|b.order|] == b.order;
    }

    /**
     * One API call on the objects: it ends in the state of its plan, with every
     * write of the plan made in that order, and keeps the steady state.
     */
    method Handle(r: Request, o: Outside) returns (err: Option<Error>)
      requires Valid()
      modifies fs, store, sup, pki
      ensures var c := Plan(dirs, old(Now()), r, o);
              && Valid() && err == c.error
              && fs.journal == old(fs.journal) + c.steps
              && Now() == Exec(old(Now()), c.steps)
      ensures Steady(dirs, old(Now())) && Admissible(old(Now()), r, o) ==> Steady(dirs, Now())
    {
      hide Exec, Steady, Admissible, CreateInstancePlan, PatchInstancePlan, DeleteInstancePlan, CreateClientPlan,
           PatchClientPlan, DeleteClientPlan;
      ghost var was, before := Now(), fs.journal;
      match r {
        case CreateInstance(req) => err := CreateInstance(req, o);
        case PatchInstance(name, body) => err := PatchInstance(name, body, o);
        case DeleteInstance(name) => err := DeleteInstance(name);
        case CreateClient(name, req) => err := CreateClient(name, req, o);
        case PatchClient(name, cn, body) => err := PatchClient(name, cn, body, o);
        case DeleteClient(name, cn) => err := DeleteClient(name, cn);
      }
      ExecAppend(fs.origin, before, Plan(dirs, was, r, o).steps);
      if Steady(dirs, was) && Admissible(was, r, o) {
        Runs.CallSteady(dirs, was, r, o);
      }
    }
  }

  lemma AfterIssue(origin: State, journal: seq<Step>, w: State, files: seq<Step>, note: Step, disk: Disk)
    requires w == Exec(origin, journal) && AllFile(files) && note.NoteIssued?
    requires disk == Exec(origin, journal + (files + [note])).disk
    ensures w.(disk := disk, issued := w.issued[note.slot := note.bundle]) == Exec(origin, journal + (files + [note]))
  {
    hide Exec, FileStep;
    ExecAppend(origin, journal, files + [note]);
    ExecAppend(w, files, [note]);
    FileStepsOnly(w, files);
    ExecOne(Exec(w, files), note);
  }
}
