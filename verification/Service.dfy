/** What users of a running instance can rely on, in every run, crashes included. */
module Service {
  import opened Wrappers
  import opened Records
  import opened Config
  import opened Sockets
  import opened Endpoints
  import opened World
  import opened Plans
  import opened Durable
  import opened Crash
  import opened Recovery
  import opened Processes
  import opened Runs
  import Paths

  // ------------------------------------------------ records that hide no listener

  // The record a call would store hides no listener: to be checked before the call.
  predicate CleanAsk(d: Dirs, w: State, r: Request) {
    match r
    case CreateInstance(req) => Clean(d, NewInstance(req))
    case PatchInstance(name, body) => name in w.mem.instances ==> Clean(d, Patched(w.mem.instances[name], body))
    case _ => true
  }

  ghost predicate CleanEvent(d: Dirs, w: State, e: Event) {
    e.ApiCall? || e.CrashInCall? ==> CleanAsk(d, w, e.r)
  }

  ghost predicate CleanRun(d: Dirs, w: State, events: seq<Event>)
    requires IsRun(d, w, events)
    decreases |events|
  {
    events == [] || (CleanEvent(d, w, events[0]) && CleanRun(d, Next(d, w, events[0]), events[1..]))
  }

  // ------------------------------------------------ one event

  lemma StoredFacts(d: Dirs, w: State, n: string)
    requires Sound(d, w) && Synced(w) && n in w.mem.instances
    ensures w.mem.instances[n].name == n && Rendered(d, w.mem.instances[n]).Some?
  {
    hide IssuedKept, RevokedIssued, CrlWithin;
    RecordFacts(d, w.mem, w.issued, n);
  }

  lemma CleanPut(d: Dirs, instances: map<string, Instance>, n: string, rec: Instance)
    requires CleanStore(d, instances) && Clean(d, rec)
    ensures CleanStore(d, instances[n := rec])
  {
    hide Clean;
  }

  lemma CleanDrop(d: Dirs, instances: map<string, Instance>, n: string)
    requires CleanStore(d, instances)
    ensures CleanStore(d, instances - {n})
  {
    hide Clean;
  }

  lemma CreateCall(d: Dirs, w: State, req: InstanceRequest, o: Outside, clean: bool)
    requires AllServing(d, See(w), clean)
    requires clean ==> CleanStore(d, w.mem.instances) && Clean(d, NewInstance(req))
    ensures var v := Exec(w, CreateInstancePlan(d, w, req, o).steps);
            AllServing(d, See(v), clean) && (clean ==> CleanStore(d, v.mem.instances))
  {
    hide Exec, CreateInstancePlan, AllServing, NewInstance, Rendered, Clean, CleanStore, Start, SeededCrl, UsesCert;
    var rec := NewInstance(req);
    var steps := CreateInstancePlan(d, w, req, o).steps;
    var v := Exec(w, steps);
    if rec.name != "" && rec.name !in w.mem.instances && rec.poolCidr != "" {
      var wanted := UsesCert(rec.authMode) || req.createCaIfEmpty;
      var crl := if wanted then SeededCrl(w.disk, rec.name) else w.disk.crl;
      SeeCreate(d, w, req, o);
      SeededCases(w, rec.name);
      if CreateInstancePlan(d, w, req, o).error.None? {
        CreateServing(d, See(w), rec, crl, Rendered(d, rec).value, o.starts, clean);
        CreatedInstances(See(w), rec, crl, Rendered(d, rec).value, o.starts);
        if clean {
          CleanPut(d, w.mem.instances, rec.name, rec);
        }
      } else {
        SeededServing(d, See(w), rec.name, crl, clean);
      }
    } else {
      RefusedCreate(d, w, req, o);
      ExecNone(w);
    }
  }

  lemma SeededCases(w: State, n: string)
    ensures SeededCrl(w.disk, n) == See(w).crl || SeededCrl(w.disk, n) == See(w).crl[n := {}]
  {
  }

  lemma CreatedInstances(v: View, rec: Instance, crl: map<string, set<int>>, text: string, starts: bool)
    ensures AfterCreate(v, rec, crl, text, starts).instances == v.instances[rec.name := rec]
  {
    hide Bound;
  }

  lemma RefusedCreate(d: Dirs, w: State, req: InstanceRequest, o: Outside)
    requires var rec := NewInstance(req); rec.name == "" || rec.name in w.mem.instances || rec.poolCidr == ""
    ensures CreateInstancePlan(d, w, req, o).steps == []
  {
    hide NewInstance;
  }

  lemma PatchCall(d: Dirs, w: State, name: string, body: Body, o: Outside, clean: bool)
    requires Sound(d, w) && Synced(w) && AllServing(d, See(w), clean)
    requires clean ==> CleanStore(d, w.mem.instances) && CleanAsk(d, w, PatchInstance(name, body))
    ensures var v := Exec(w, PatchInstancePlan(d, w, name, body, o).steps);
            AllServing(d, See(v), clean) && (clean ==> CleanStore(d, v.mem.instances))
  {
    hide Exec, PatchInstancePlan, AllServing, Rendered, Clean, CleanStore, Patched, AfterPatch, Sound, Synced;
    RefusedPatch(d, w, name, body, o);
    if name in w.mem.instances && Rendered(d, Patched(w.mem.instances[name], body)).Some? {
      var rec := Patched(w.mem.instances[name], body);
      StoredFacts(d, w, name);
      SeePatch(d, w, name, body, o);
      PatchServing(d, See(w), name, body, Rendered(d, rec).value, o.starts, clean);
      PatchedInstances(See(w), name, body, Rendered(d, rec).value, o.starts);
      if clean {
        CleanPut(d, w.mem.instances, name, rec);
      }
    } else {
      ExecNone(w);
    }
  }

  lemma PatchedInstances(v: View, name: string, body: Body, text: string, starts: bool)
    requires name in v.instances
    ensures AfterPatch(v, name, body, text, starts).instances == v.instances[name := Patched(v.instances[name], body)]
    ensures AfterPatch(v, name, body, text, starts).conf == v.conf[name := text]
  {
    hide Bound, Patched, ListenersDiffer;
  }

  lemma DeleteCall(d: Dirs, w: State, name: string, clean: bool)
    requires AllServing(d, See(w), clean) && (clean ==> CleanStore(d, w.mem.instances))
    ensures var v := Exec(w, DeleteInstancePlan(w, name).steps);
            AllServing(d, See(v), clean) && (clean ==> CleanStore(d, v.mem.instances))
  {
    hide Exec, AllServing, CleanStore;
    if name in w.mem.instances {
      SeeDelete(w, name);
      DeleteServing(d, See(w), name, clean);
      if clean {
        CleanDrop(d, w.mem.instances, name);
      }
    } else {
      ExecNone(w);
    }
  }

  lemma DeleteClientCall(d: Dirs, w: State, name: string, cn: string, clean: bool)
    requires AllServing(d, See(w), clean)
    ensures var v := Exec(w, DeleteClientPlan(w, name, cn).steps);
            AllServing(d, See(v), clean) && v.mem.instances == w.mem.instances
  {
    hide Exec, AllServing, DeleteClientPlan, Bound;
    if cn in ClientsOf(w.mem, name) {
      var v := See(Exec(w, DeleteClientPlan(w, name, cn).steps));
      SeeDeleteClient(w, name, cn);
      if v != See(w) {
        var crl :| v == AfterCrl(See(w), name, crl)
                   && forall m | m != name :: (m in crl <==> m in w.disk.crl) && (m in crl ==> crl[m] == w.disk.crl[m]);
        CrlServing(d, See(w), name, crl, clean);
      }
    } else {
      UnknownDelete(w, name, cn);
      ExecNone(w);
    }
  }

  /** Every call, failed or not, keeps all processes serving, whatever state earlier crashes left the files in. */
  lemma CallServing(d: Dirs, w: State, r: Request, o: Outside, clean: bool)
    requires Sound(d, w) && Synced(w) && AllServing(d, See(w), clean)
    requires clean ==> CleanStore(d, w.mem.instances) && CleanAsk(d, w, r)
    ensures var v := Exec(w, Plan(d, w, r, o).steps);
            AllServing(d, See(v), clean) && (clean ==> CleanStore(d, v.mem.instances))
  {
    hide Exec, AllServing, CleanStore, Clean, Sound, Synced, CreateInstancePlan, PatchInstancePlan,
         DeleteInstancePlan, CreateClientPlan, PatchClientPlan, DeleteClientPlan, NewInstance, Patched;
    match r
    case CreateInstance(req) => CreateCall(d, w, req, o, clean);
    case PatchInstance(name, body) => PatchCall(d, w, name, body, o, clean);
    case DeleteInstance(name) => DeleteCall(d, w, name, clean);
    case CreateClient(name, req) => SeeCreateClient(w, name, req, o);
    case PatchClient(name, cn, body) => SeePatchClient(w, name, cn, body, o);
    case DeleteClient(name, cn) => DeleteClientCall(d, w, name, cn, clean);
  }

  lemma {:induction false} ReconcileServing(d: Dirs, w: State, b: Boot, order: seq<string>, clean: bool)
    requires Sound(d, w) && Synced(w) && AllServing(d, See(w), clean) && forall n | n in order :: n in w.mem.instances
    requires clean ==> CleanStore(d, w.mem.instances)
    ensures var v := Exec(w, ReconcilePlan(d, w.mem, b, order)); AllServing(d, See(v), clean)
    decreases |order|
  {
    hide Sound, Synced, AllServing, ReconcileOne, Rendered, Clean, Start, Configured, Quiet;
    if order != [] {
      var n := order[0];
      var first, rest := ReconcileOne(d, w.mem, b, n), ReconcilePlan(d, w.mem, b, order[1..]);
      var u := Exec(w, first);
      StoredFacts(d, w, n);
      SeeReconcileOne(d, w, b, n);
      if w.mem.instances[n].enabled {
        ReconcileOneServing(d, See(w), n, n in b.starts, clean);
      }
      OneQuiet(d, w, b, n);
      ReconcileServing(d, u, b, order[1..], clean);
      ExecAppend(w, first, rest);
    }
  }

  lemma OneQuiet(d: Dirs, w: State, b: Boot, n: string)
    requires Sound(d, w) && Synced(w) && n in w.mem.instances
    ensures var u := Exec(w, ReconcileOne(d, w.mem, b, n)); Sound(d, u) && Synced(u) && u.mem == w.mem
  {
    hide GoodData, IssuedKept, RevokedIssued, CrlWithin, Exec, StartInstance, Quiet;
    var steps := ReconcileOne(d, w.mem, b, n);
    StartQuiet(d, w.mem, w.mem.instances[n], ClientOrder(b, n), n in b.starts, false);
    QuietSafe(d, w, steps, w.mem, {});
    QuietFiles(d, w, Exec(w, steps));
  }

  lemma DownServing(d: Dirs, w: State, disk: Disk, clean: bool)
    ensures AllServing(d, See(Down(w, disk)), clean)
  {
  }

  lemma DiedServing(d: Dirs, w: State, name: string, clean: bool)
    requires AllServing(d, See(w), clean)
    ensures AllServing(d, See(Died(w, name)), clean)
  {
    hide Rendered, StartedFrom;
    forall n | n in Died(w, name).procs && Died(w, name).procs[n].alive ensures Serving(d, See(Died(w, name)), n,
        clean) {
      assert n != name && Serving(d, See(w), n, clean);
    }
  }

  lemma NextServing(d: Dirs, w: State, e: Event, clean: bool)
    requires Sound(d, w) && Synced(w) && Possible(d, w, e) && AllServing(d, See(w), clean)
    requires clean ==> CleanStore(d, w.mem.instances) && CleanEvent(d, w, e)
    ensures var v := Next(d, w, e); AllServing(d, See(v), clean) && (clean ==> CleanStore(d, v.mem.instances))
  {
    hide Plan, ReconcilePlan, Exec, Admissible, AllServing, CleanStore, Sound, CleanAsk, See, Lost, AllRevoked;
    match e
    case ApiCall(r, o) => CallServing(d, w, r, o, clean);
    case Dies(name) => DiedServing(d, w, name, clean);
    case Restart => DownServing(d, w, w.disk, clean);
    case Reconcile(b) =>
      assert forall n | n in b.order :: n in (set x | x in b.order);
      ReconcileServing(d, w, b, b.order, clean);
      ReconcileKeepsMem(d, w, b, |ReconcilePlan(d, w.mem, b, b.order)|);
    case CrashInCall(r, o, k, torn) =>
      var steps := Plan(d, w, r, o).steps;
      DownServing(d, Exec(w, steps[..k]), CrashDisk(w, steps, k, torn), clean);
      CrashedSound(d, w, r, o, k, torn);
      CallServing(d, w, r, o, clean);
    case CrashInReconcile(b, k) =>
      var steps := ReconcilePlan(d, w.mem, b, b.order);
      DownServing(d, Exec(w, steps[..k]), CrashDisk(w, steps, k, false), clean);
      ReconcileKeepsMem(d, w, b, k);
  }

  lemma ReconcileKeepsMem(d: Dirs, w: State, b: Boot, k: nat)
    requires Synced(w) && k <= |ReconcilePlan(d, w.mem, b, b.order)|
    ensures Crashed(w, ReconcilePlan(d, w.mem, b, b.order), k, false).mem == w.mem
    ensures Rebooted(d, w, b).mem == w.mem
  {
    hide ReconcilePlan, Exec, Quiet;
    var steps := ReconcilePlan(d, w.mem, b, b.order);
    ReconcileQuiet(d, w.mem, b, b.order);
    QuietSafe(d, w, steps[..k], w.mem, {});
    QuietSafe(d, w, steps, w.mem, {});
  }

  // ------------------------------------------------ whole runs

  /**
   * In every run, crashes anywhere: each live process belongs to a stored,
   * enabled instance, its config file is the render of the record, it has read
   * that file and the current CRL, and the listener settings it was started
   * with are still those of the record.
   */
  lemma {:induction false} RunServes(d: Dirs, w: State, events: seq<Event>, clean: bool)
    requires Sound(d, w) && Synced(w) && IsRun(d, w, events) && AllServing(d, See(w), clean)
    requires clean ==> CleanStore(d, w.mem.instances) && CleanRun(d, w, events)
    ensures var v := After(d, w, events);
            AllServing(d, See(v), clean) && (clean ==> CleanStore(d, v.mem.instances))
    decreases |events|
  {
    hide Sound, Synced, Possible, Next, AllServing, CleanStore, CleanEvent, See, Accumulates, Lost, AllRevoked;
    if events != [] {
      NextServing(d, w, events[0], clean);
      NextSound(d, w, events[0]);
      RunServes(d, Next(d, w, events[0]), events[1..], clean);
    }
  }

  /**
   * When no call of the run asks for a record that hides a listener, every live
   * process has bound exactly what its config file says.
   */
  lemma RunListeners(d: Dirs, w: State, events: seq<Event>, n: string)
    requires Sound(d, w) && Synced(w) && IsRun(d, w, events) && AllServing(d, See(w), true)
    requires CleanStore(d, w.mem.instances) && CleanRun(d, w, events)
    requires Alive(After(d, w, events), n)
    ensures var v := After(d, w, events);
            n in v.disk.conf && v.procs[n].conf == v.disk.conf[n] && v.procs[n].bound == Bound(v.disk.conf[n])
  {
    hide Sound, Synced, IsRun, After, CleanStore, CleanRun, Bound, StartedFrom, Rendered;
    RunServes(d, w, events, true);
    ListenersExact(d, See(After(d, w, events)), n);
  }

  // A serving process has bound the listeners its record asks for.
  lemma BoundAsAsked(d: Dirs, w: State, n: string, p: int)
    requires AllServing(d, See(w), true) && CleanStore(d, w.mem.instances) && Alive(w, n)
    ensures n in w.mem.instances
    ensures PortOf(w.mem.instances[n].listen, p) ==> w.procs[n].bound == ListenLines(w.mem.instances[n], p)
  {
    hide Bound, Clean, ListenLines, PortOf, RenderRecord, StartedFrom;
    ListenersExact(d, See(w), n);
    assert Serving(d, See(w), n, true);
    if PortOf(w.mem.instances[n].listen, p) {
      ListenersAsked(d, w.mem.instances[n], p);
    }
  }

  /**
   * So each live process listens where its stored record says: on its TCP port or
   * the port of its listen address, and with DTLS on UDP on the latter.
   */
  lemma RunListens(d: Dirs, w: State, events: seq<Event>, n: string, p: int)
    requires Sound(d, w) && Synced(w) && IsRun(d, w, events) && AllServing(d, See(w), true)
    requires CleanStore(d, w.mem.instances) && CleanRun(d, w, events)
    requires Alive(After(d, w, events), n)
    ensures var v := After(d, w, events);
            && n in v.mem.instances
            && (PortOf(v.mem.instances[n].listen, p) ==> v.procs[n].bound == ListenLines(v.mem.instances[n], p))
  {
    hide Sound, Synced, IsRun, After, CleanStore, CleanRun, AllServing, PortOf, ListenLines;
    RunServes(d, w, events, true);
    BoundAsAsked(d, After(d, w, events), n, p);
  }

  /** A daemon that has just come up has no process that could be wrong. */
  lemma FreshServing(d: Dirs, w: State, clean: bool)
    requires w.procs == map[]
    ensures AllServing(d, See(w), clean)
  {
  }

  // ------------------------------------------------ restart or reload

  // A patch that changes no listener of an enabled instance is a reload.
  lemma ReloadKeepsProcess(v: View, name: string, body: Body, text: string, starts: bool)
    requires Up(v, name) && name in v.instances
    requires Patched(v.instances[name], body).enabled
        && !ListenersDiffer(v.instances[name], Patched(v.instances[name], body))
    ensures var u := AfterPatch(v, name, body, text, starts);
            && Up(u, name)
            && u.procs[name].pid == v.procs[name].pid && u.procs[name].bound == v.procs[name].bound
            && u.procs[name].conf == text
  {
    hide Bound, Patched, ListenersDiffer;
  }

  lemma SameListeners(rec: Instance, body: Body)
    requires LeavesListeners(body)
    ensures !ListenersDiffer(rec, Patched(rec, body))
  {
  }

  /**
   * A successful patch that names no listener setting and leaves the instance
   * enabled keeps a live process, which re-reads the new config.
   */
  lemma PatchKeepsProcess(d: Dirs, w: State, name: string, body: Body, o: Outside)
    requires Sound(d, w) && Synced(w) && Alive(w, name) && name in w.mem.instances
    requires PatchInstancePlan(d, w, name, body, o).error.None?
    requires LeavesListeners(body) && Patched(w.mem.instances[name], body).enabled
    ensures var v := Exec(w, PatchInstancePlan(d, w, name, body, o).steps);
            && Alive(v, name)
            && v.procs[name].pid == w.procs[name].pid && v.procs[name].bound == w.procs[name].bound
            && Some(v.procs[name].conf) == Rendered(d, Patched(w.mem.instances[name], body))
  {
    hide Sound, Synced, Exec, PatchInstancePlan, Patched, ListenersDiffer, Rendered, LeavesListeners, AfterPatch;
    StoredFacts(d, w, name);
    SameListeners(w.mem.instances[name], body);
    RefusedPatch(d, w, name, body, o);
    SeePatch(d, w, name, body, o);
    ReloadKeepsProcess(See(w), name, body, Rendered(d, Patched(w.mem.instances[name], body)).value, o.starts);
  }

  lemma RestartReplaces(v: View, name: string, body: Body, text: string, starts: bool)
    requires name in v.instances && name in v.procs && v.procs[name].pid < v.nextPid
    requires ListenersDiffer(v.instances[name], Patched(v.instances[name], body))
    ensures var u := AfterPatch(v, name, body, text, starts); name in u.procs ==> u.procs[name].pid != v.procs[name].pid
  {
    hide Bound, Patched, ListenersDiffer;
  }

  /** A patch that changes a listener, and is not refused, never keeps the old process. */
  lemma PatchRebinds(d: Dirs, w: State, name: string, body: Body, o: Outside)
    requires Sound(d, w) && Synced(w) && AllServing(d, See(w), false) && Alive(w, name) && name in w.mem.instances
    requires PatchInstancePlan(d, w, name, body, o).error != Some(RenderFailed)
    requires ListenersDiffer(w.mem.instances[name], Patched(w.mem.instances[name], body))
    ensures var v := Exec(w, PatchInstancePlan(d, w, name, body, o).steps);
            name in v.procs ==> v.procs[name].pid != w.procs[name].pid
  {
    hide Sound, Synced, Exec, PatchInstancePlan, Patched, ListenersDiffer, Rendered, AfterPatch, Serving;
    StoredFacts(d, w, name);
    RefusedPatch(d, w, name, body, o);
    SeePatch(d, w, name, body, o);
    RestartReplaces(See(w), name, body, Rendered(d, Patched(w.mem.instances[name], body)).value, o.starts);
  }

  lemma PatchAgain(rec: Instance, body: Body)
    ensures Patched(Patched(rec, body), body) == Patched(rec, body)
    ensures !ListenersDiffer(Patched(rec, body), Patched(Patched(rec, body), body))
  {
    PatchIdempotent(rec, body);
  }

  lemma UpMeansEnabled(v: View, name: string, body: Body, text: string, starts: bool)
    requires name in v.instances && Up(AfterPatch(v, name, body, text, starts), name)
    ensures Patched(v.instances[name], body).enabled
  {
    hide Patched, Bound;
  }

  lemma PatchSound(d: Dirs, w: State, name: string, body: Body, o: Outside)
    requires Sound(d, w) && Synced(w) && Admissible(w, PatchInstance(name, body), o)
    ensures var v := Exec(w, PatchInstancePlan(d, w, name, body, o).steps); Sound(d, v) && Synced(v)
  {
    hide Sound, Synced, Exec, PatchInstancePlan, Admissible, Lost, AllRevoked, Accumulates;
    var r := PatchInstance(name, body);
    CallSound(d, w, r, o, |Plan(d, w, r, o).steps|, false);
  }

  /** Applying the same patch a second time never restarts a live process. */
  lemma PatchTwice(d: Dirs, w: State, name: string, body: Body, o: Outside, o': Outside)
    requires Sound(d, w) && Synced(w) && name in w.mem.instances && Admissible(w, PatchInstance(name, body), o)
    requires PatchInstancePlan(d, w, name, body, o).error != Some(RenderFailed)
    requires Alive(Exec(w, PatchInstancePlan(d, w, name, body, o).steps), name)
    ensures var v := Exec(w, PatchInstancePlan(d, w, name, body, o).steps);
            var u := Exec(v, PatchInstancePlan(d, v, name, body, o').steps);
            && PatchInstancePlan(d, v, name, body, o').error.None?
            && Alive(u, name) && u.procs[name].pid == v.procs[name].pid
  {
    hide Sound, Synced, Exec, PatchInstancePlan, Patched, ListenersDiffer, Rendered, AfterPatch, Admissible;
    var rec := Patched(w.mem.instances[name], body);
    var text := Rendered(d, rec).value by { RefusedPatch(d, w, name, body, o); }
    StoredFacts(d, w, name);
    RefusedPatch(d, w, name, body, o);
    SeePatch(d, w, name, body, o);
    PatchedInstances(See(w), name, body, text, o.starts);
    UpMeansEnabled(See(w), name, body, text, o.starts);
    var v := Exec(w, PatchInstancePlan(d, w, name, body, o).steps);
    PatchSound(d, w, name, body, o);
    StoredFacts(d, v, name);
    PatchAgain(w.mem.instances[name], body);
    SeePatch(d, v, name, body, o');
    ReloadKeepsProcess(See(v), name, body, text, o'.starts);
    KeptMeansNone(d, v, name, body, o');
  }

  lemma KeptMeansNone(d: Dirs, v: State, name: string, body: Body, o: Outside)
    requires name in v.mem.instances && v.mem.instances[name].name == name
    requires Rendered(d, Patched(v.mem.instances[name], body)).Some?
    requires !ListenersDiffer(v.mem.instances[name], Patched(v.mem.instances[name], body))
    ensures PatchInstancePlan(d, v, name, body, o).error.None?
  {
    hide Patched, ListenersDiffer, Rendered, PatchInstancePlan, WriteConfig, StartInstance, Flush;
    var _ := PatchPlanParts(d, v, name, body, o);
  }

  // ------------------------------------------------ hidden listeners

  lemma KeptConf(d: Dirs, w: State, name: string, body: Body, o: Outside)
    requires Sound(d, w) && Synced(w) && Alive(w, name) && PatchInstancePlan(d, w, name, body, o).error.None?
    requires name in w.mem.instances && LeavesListeners(body) && Patched(w.mem.instances[name], body).enabled
    ensures Rendered(d, Patched(w.mem.instances[name], body)).Some?
    ensures var v := Exec(w, PatchInstancePlan(d, w, name, body, o).steps);
            && Alive(v, name) && v.procs[name].pid == w.procs[name].pid && v.procs[name].bound == w.procs[name].bound
            && name in v.disk.conf && v.disk.conf[name] == Rendered(d, Patched(w.mem.instances[name], body)).value
  {
    hide Sound, Synced, Exec, PatchInstancePlan, Patched, ListenersDiffer, Rendered, LeavesListeners, AfterPatch;
    PatchKeepsProcess(d, w, name, body, o);
    StoredFacts(d, w, name);
    RefusedPatch(d, w, name, body, o);
    SeePatch(d, w, name, body, o);
    PatchedInstances(See(w), name, body, Rendered(d, Patched(w.mem.instances[name], body)).value, o.starts);
  }

  /**
   * A live process is kept across a patch of other settings. Whatever records
   * were stored meanwhile, it then has bound what its new config file says if
   * and only if the record it was started from and the new one have the same
   * listener lines, hidden ones included.
   */
  lemma KeptSocketsIff(d: Dirs, w: State, name: string, body: Body, o: Outside, r: Instance)
    requires Sound(d, w) && Synced(w) && Alive(w, name) && PatchInstancePlan(d, w, name, body, o).error.None?
    requires name in w.mem.instances && LeavesListeners(body) && Patched(w.mem.instances[name], body).enabled
    requires StartedFrom(d, r, w.mem.instances[name], w.procs[name].bound, false)
    ensures Rendered(d, Patched(w.mem.instances[name], body)).Some?
    ensures var rec := Patched(w.mem.instances[name], body);
            var v := Exec(w, PatchInstancePlan(d, w, name, body, o).steps);
            && Alive(v, name) && v.procs[name].pid == w.procs[name].pid && name in v.disk.conf
            && (v.procs[name].bound == Bound(v.disk.conf[name]) <==> LinesOf(d, r) == LinesOf(d, rec))
            && (Clean(d, r) ==> (v.procs[name].bound == Bound(v.disk.conf[name]) <==> Clean(d, rec)))
            && (Clean(d, rec) ==> (v.procs[name].bound == Bound(v.disk.conf[name]) <==> Clean(d, r)))
  {
    hide Sound, Synced, Exec, PatchInstancePlan, Patched, ListenersDiffer, LeavesListeners, RenderRecord, Bound, Clean,
         LinesOf;
    var rec := w.mem.instances[name];
    KeptConf(d, w, name, body, o);
    SameListeners(rec, body);
    InTurn(r, rec, Patched(rec, body));
    SameListenersSameLines(d, r, Patched(rec, body));
  }

  lemma InTurn(a: Instance, b: Instance, c: Instance)
    requires !ListenersDiffer(a, b) && !ListenersDiffer(b, c)
    ensures !ListenersDiffer(a, c)
  {
  }

  // Every live process has such a record.
  lemma StartRecord(d: Dirs, w: State, name: string, clean: bool) returns (r: Instance)
    requires AllServing(d, See(w), clean) && Alive(w, name)
    ensures name in w.mem.instances && StartedFrom(d, r, w.mem.instances[name], w.procs[name].bound, false)
    ensures clean ==> Clean(d, r)
  {
    hide Rendered, Bound, Clean, ListenersDiffer;
    assert Serving(d, See(w), name, clean);
    r :| StartedFrom(d, r, w.mem.instances[name], w.procs[name].bound, clean);
  }

  // Setting the DNS servers to one entry with a second line.
  const HIDING_PATCH: Body := map["dns" := JArray([JString(HIDING)])]

  lemma HidingPatchEffect(rec: Instance)
    ensures LeavesListeners(HIDING_PATCH) && Patched(rec, HIDING_PATCH) == rec.(dns := [HIDING])
  {
    assert "dns" != "local_bind" && "dns" != "dtls" && "dns" != "tcp_port" && "dns" != "proxy_proto";
    assert [JString(HIDING)][1..] == [];
    assert ToStrings([JString(HIDING)]) == [HIDING];
    hide HIDING;
  }

  // A patch of an enabled instance that names no listener setting and renders always completes.
  lemma PatchCompletes(d: Dirs, w: State, name: string, body: Body, o: Outside)
    requires Sound(d, w) && Synced(w) && name in w.mem.instances && LeavesListeners(body)
    requires Rendered(d, Patched(w.mem.instances[name], body)).Some?
    ensures PatchInstancePlan(d, w, name, body, o).error.None?
  {
    hide Sound, Synced, Patched, ListenersDiffer, Rendered, PatchInstancePlan, LeavesListeners;
    StoredFacts(d, w, name);
    SameListeners(w.mem.instances[name], body);
    KeptMeansNone(d, w, name, body, o);
  }

  lemma HidingRenders(d: Dirs, w: State, name: string)
    requires Sound(d, w) && Synced(w) && name in w.mem.instances
    ensures Rendered(d, Patched(w.mem.instances[name], HIDING_PATCH)).Some?
  {
    hide Sound, Synced, Patched, RenderRecord, HIDING_PATCH;
    StoredFacts(d, w, name);
    HidingPatchEffect(w.mem.instances[name]);
    DnsRenders(d, w.mem.instances[name], [HIDING]);
  }

  /**
   * So in every state in which no record hides a listener, this patch of the DNS
   * servers leaves a live process without a port that its own config file opens.
   */
  lemma HiddenPort(d: Dirs, w: State, name: string, o: Outside)
    requires Sound(d, w) && Synced(w) && AllServing(d, See(w), true)
    requires Alive(w, name) && name in w.mem.instances && w.mem.instances[name].enabled
    ensures PatchInstancePlan(d, w, name, HIDING_PATCH, o).error.None?
    ensures var v := Exec(w, PatchInstancePlan(d, w, name, HIDING_PATCH, o).steps);
            && Alive(v, name) && v.procs[name].pid == w.procs[name].pid && name in v.disk.conf
            && v.procs[name].bound != Bound(v.disk.conf[name])
  {
    hide Sound, Synced, Exec, PatchInstancePlan, Patched, LeavesListeners, Bound, Clean, HIDING_PATCH, AllServing,
         StartedFrom, Rendered, LinesOf;
    HidingRenders(d, w, name);
    HidingPatchEffect(w.mem.instances[name]);
    PatchCompletes(d, w, name, HIDING_PATCH, o);
    NotClean(d, w.mem.instances[name]);
    var r := StartRecord(d, w, name, true);
    KeptSocketsIff(d, w, name, HIDING_PATCH, o, r);
  }

  /**
   * And the other way round: a process started from a record that hides a
   * listener keeps that socket across the patch that cleans the record.
   */
  lemma HiddenPortStays(d: Dirs, w: State, name: string, body: Body, o: Outside, r: Instance)
    requires Sound(d, w) && Synced(w) && Alive(w, name) && PatchInstancePlan(d, w, name, body, o).error.None?
    requires name in w.mem.instances && LeavesListeners(body) && Patched(w.mem.instances[name], body).enabled
    requires StartedFrom(d, r, w.mem.instances[name], w.procs[name].bound, false)
    requires !Clean(d, r) && Clean(d, Patched(w.mem.instances[name], body))
    ensures var v := Exec(w, PatchInstancePlan(d, w, name, body, o).steps);
            Alive(v, name) && name in v.disk.conf && v.procs[name].bound != Bound(v.disk.conf[name])
  {
    hide Sound, Synced, Exec, PatchInstancePlan, Patched, LeavesListeners, Bound, Clean, StartedFrom, Rendered, LinesOf;
    KeptSocketsIff(d, w, name, body, o, r);
  }

  lemma NotClean(d: Dirs, rec: Instance)
    ensures !Clean(d, rec.(dns := [HIDING]))
  {
    HidingHides();
    hide Hides, AuthClean, SocketsClean, CamouflageClean, PkiPath, TunName, HostOnly, ListenPort, Paths.Join,
         Paths.PerUserDir;
    var c := ConfigOf(d, rec.(dns := [HIDING]));
    assert c.dns[0] == HIDING;
  }
}
