/** Whole runs: any sequence of calls, process deaths, restarts and crashes. */
module Runs {
  import opened Wrappers
  import opened Records
  import opened Config
  import opened World
  import opened Plans
  import opened Durable
  import opened Crash
  import opened Recovery
  import opened SteadyState
  import opened SteadyInstances
  import opened SteadyClients

  datatype Event =
    | ApiCall(r: Request, o: Outside)
    | Dies(name: string)   // a supervised process exits
    | Restart              // the daemon stops between calls and comes up again
    | Reconcile(b: Boot)
    // The daemon dies after k steps of a call and comes up again.
    | CrashInCall(r: Request, o: Outside, k: nat, torn: bool)
    | CrashInReconcile(b: Boot, k: nat)

  ghost predicate Possible(d: Dirs, w: State, e: Event) {
    match e
    case ApiCall(r, o) => Admissible(w, r, o)
    case Reconcile(b) => BootAdmissible(w.mem, b)
    case CrashInCall(r, o, k, _) => Admissible(w, r, o) && k <= |Plan(d, w, r, o).steps|
    case CrashInReconcile(b, k) => BootAdmissible(w.mem, b) && k <= |ReconcilePlan(d, w.mem, b, b.order)|
    case _ => true
  }

  ghost function Next(d: Dirs, w: State, e: Event): State
    requires Possible(d, w, e)
  {
    match e
    case ApiCall(r, o) => Exec(w, Plan(d, w, r, o).steps)
    case Dies(name) => Died(w, name)
    case Restart => Down(w, w.disk)
    case Reconcile(b) => Rebooted(d, w, b)
    case CrashInCall(r, o, k, torn) => Crashed(w, Plan(d, w, r, o).steps, k, torn)
    case CrashInReconcile(b, k) => Crashed(w, ReconcilePlan(d, w.mem, b, b.order), k, false)
  }

  ghost predicate IsRun(d: Dirs, w: State, events: seq<Event>)
    decreases |events|
  {
    events == [] || (Possible(d, w, events[0]) && IsRun(d, Next(d, w, events[0]), events[1..]))
  }

  ghost function After(d: Dirs, w: State, events: seq<Event>): State
    requires IsRun(d, w, events)
    decreases |events|
  {
    if events == [] then w else After(d, Next(d, w, events[0]), events[1..])
  }

  // The certificates that deletions of clients took out of the durable store along a run.
  ghost function Dropped(d: Dirs, w: State, events: seq<Event>): set<Slot>
    requires IsRun(d, w, events)
    decreases |events|
  {
    if events == [] then {}
    else
      var e, v := events[0], Next(d, w, events[0]);
      (if e.ApiCall? || e.CrashInCall? then Lost(e.r, w.mem, v.mem) else {}) + Dropped(d, v, events[1..])
  }

  predicate CrashFree(events: seq<Event>) {
    forall i | 0 <= i < |events| :: !events[i].CrashInCall? && !events[i].CrashInReconcile?
  }

  // ------------------------------------------------ what no event ever undoes

  // Revocations and issued bundles only accumulate.
  ghost predicate Accumulates(w: State, v: State) {
    && (forall n: string :: RevokedOf(w.disk, n) <= RevokedOf(v.disk, n))
    && (forall slot | slot in w.issued :: slot in v.issued && v.issued[slot] == w.issued[slot])
  }

  lemma StepAccumulates(d: Dirs, w: State, s: Step, post: StoreData, lost: set<Slot>)
    requires StepOk(d, w, s, post, lost)
    ensures Accumulates(w, Apply(w, s))
  {
    hide GoodData, Numbers, HexKey, Started, Stopped, Reloaded;
    ProcessFrame(w, s);
    RevokedGrows(d, w, s, post, lost);
  }

  lemma {:induction false} PrefixAccumulates(d: Dirs, w: State, steps: seq<Step>, k: nat, post: StoreData,
      lost: set<Slot>)
    requires SafePlan(d, w, steps, post, lost) && k <= |steps|
    ensures Accumulates(w, Exec(w, steps[..k]))
    decreases k
  {
    hide StepOk, Apply, RevokedOf;
    if k > 0 {
      StepAccumulates(d, w, steps[0], post, lost);
      PrefixAccumulates(d, Apply(w, steps[0]), steps[1..], k - 1, post, lost);
      assert steps[..k][1..] == steps[1..][..k - 1];
    }
  }

  /** One event keeps the files sound, revokes what it drops and undoes no revocation and no issued bundle. */
  lemma NextSound(d: Dirs, w: State, e: Event)
    requires Sound(d, w) && Synced(w) && Possible(d, w, e)
    ensures var v := Next(d, w, e);
            && Sound(d, v) && Synced(v) && Accumulates(w, v)
            && (e.ApiCall? || e.CrashInCall? ==> AllRevoked(v.disk, Lost(e.r, w.mem, v.mem)))
  {
    hide Plan, ReconcilePlan, SafePlan, Exec, Admissible, BootAdmissible, GoodData, IssuedKept, RevokedIssued,
         CrlWithin, Lost, AllRevoked, RevokedOf;
    match e
    case ApiCall(r, o) => CallSound(d, w, r, o, |Plan(d, w, r, o).steps|, false);
    case CrashInCall(r, o, k, torn) => CallSound(d, w, r, o, k, torn);
    case Reconcile(b) => ReconcileSound(d, w, b, |ReconcilePlan(d, w.mem, b, b.order)|);
    case CrashInReconcile(b, k) => ReconcileSound(d, w, b, k);
    case _ =>
  }

  lemma CallSound(d: Dirs, w: State, r: Request, o: Outside, k: nat, torn: bool)
    requires Sound(d, w) && Synced(w) && Admissible(w, r, o) && k <= |Plan(d, w, r, o).steps|
    ensures var steps := Plan(d, w, r, o).steps;
            var v := Crashed(w, steps, k, torn);
            && Sound(d, v) && Synced(v) && Accumulates(w, v) && AllRevoked(v.disk, Lost(r, w.mem, v.mem))
    ensures k == |Plan(d, w, r, o).steps| ==>
              var v := Exec(w, Plan(d, w, r, o).steps);
              && Sound(d, v) && Synced(v) && Accumulates(w, v) && AllRevoked(v.disk, Lost(r, w.mem, v.mem))
  {
    hide Plan, SafePlan, Exec, Admissible, Sound, AllRevoked, RevokedOf, Lost;
    var steps := Plan(d, w, r, o).steps;
    var post := Exec(w, steps).mem;
    PlanSafe(d, w, r, o);
    PrefixAccumulates(d, w, steps, k, post, Lost(r, w.mem, post));
    CrashedSound(d, w, r, o, k, torn);
    NothingLost(r, w.mem, Crashed(w, steps, k, torn).disk);
    CrashKeepsHistory(w, steps, k, torn);
    if k == |steps| {
      assert steps[..k] == steps;
      CompletedSound(d, w, r, o);
      var v := Exec(w, steps);
      assert Crashed(w, steps, k, torn) == Down(v, v.disk);
    }
  }

  lemma NothingLost(r: Request, data: StoreData, disk: Disk)
    ensures AllRevoked(disk, Lost(r, data, data))
  {
  }

  lemma CrashKeepsHistory(w: State, steps: seq<Step>, k: nat, torn: bool)
    requires k <= |steps|
    ensures Accumulates(w, Exec(w, steps[..k])) ==> Accumulates(w, Crashed(w, steps, k, torn))
  {
    hide Exec;
  }

  lemma ReconcileSound(d: Dirs, w: State, b: Boot, k: nat)
    requires Sound(d, w) && Synced(w) && k <= |ReconcilePlan(d, w.mem, b, b.order)|
    ensures var steps := ReconcilePlan(d, w.mem, b, b.order);
            var v := Crashed(w, steps, k, false);
            Sound(d, v) && Synced(v) && Accumulates(w, v)
    ensures k == |ReconcilePlan(d, w.mem, b, b.order)| ==>
              var v := Rebooted(d, w, b); Sound(d, v) && Synced(v) && Accumulates(w, v)
  {
    hide ReconcilePlan, Exec, GoodData, IssuedKept, RevokedIssued, CrlWithin, Quiet;
    var steps := ReconcilePlan(d, w.mem, b, b.order);
    ReconcileQuiet(d, w.mem, b, b.order);
    QuietSafe(d, w, steps[..k], w.mem, {});
    QuietFiles(d, w, Exec(w, steps[..k]));
    if k == |steps| {
      assert steps[..k] == steps;
    }
  }

  lemma QuietFiles(d: Dirs, w: State, v: State)
    requires SameFiles(w, v) && Sound(d, w) && Synced(w)
    ensures Sound(d, v) && Synced(v) && Accumulates(w, v)
  {
    hide GoodData, HexKey, Numbers;
  }

  /**
   * In every run, with crashes anywhere: the files stay sound, every certificate
   * lost with a deleted client is revoked, and no revocation and no issued
   * bundle is ever undone.
   */
  lemma {:induction false} RunSound(d: Dirs, w: State, events: seq<Event>)
    requires Sound(d, w) && Synced(w) && IsRun(d, w, events)
    ensures var v := After(d, w, events);
            Sound(d, v) && Synced(v) && Accumulates(w, v) && AllRevoked(v.disk, Dropped(d, w, events))
    decreases |events|
  {
    hide Sound, Synced, Possible, Next, RevokedOf, Lost;
    if events != [] {
      var v := Next(d, w, events[0]);
      NextSound(d, w, events[0]);
      RunSound(d, v, events[1..]);
      StayRevoked(v.disk, After(d, w, events).disk, if events[0].ApiCall? || events[0].CrashInCall?
                                                    then Lost(events[0].r, w.mem, v.mem) else {});
    }
  }

  lemma StayRevoked(a: Disk, b: Disk, slots: set<Slot>)
    requires forall n: string :: RevokedOf(a, n) <= RevokedOf(b, n)
    ensures AllRevoked(a, slots) ==> AllRevoked(b, slots)
  {
    hide RevokedOf;
  }

  /** After any run and a Reconcile, every enabled instance has the config and the pins its record asks for. */
  lemma RunRecovers(d: Dirs, w: State, events: seq<Event>, b: Boot)
    requires Sound(d, w) && Synced(w) && IsRun(d, w, events)
    requires BootAdmissible(After(d, w, events).mem, b)
    ensures var u := After(d, w, events);
            var v := Rebooted(d, u, b);
            v.mem == u.mem && forall n | n in v.mem.instances :: Restored(d, v, n)
  {
    hide Exec, ReconcilePlan, Restored, GoodData, IsRun, After;
    RunSound(d, w, events);
    var u := After(d, w, events);
    assert forall n | n in b.order :: n in (set x | x in b.order);
    ReconcileRestores(d, u, b, b.order);
  }

  // ------------------------------------------------ runs without crashes

  lemma CallSteady(d: Dirs, w: State, r: Request, o: Outside)
    requires Steady(d, w) && Admissible(w, r, o)
    ensures Steady(d, Exec(w, Plan(d, w, r, o).steps))
  {
    hide Sound, Synced, ConfExact, PinsExact, CrlExact, CaSeeded, SerialsLive, Exec, CreateInstancePlan,
         PatchInstancePlan, DeleteInstancePlan, CreateClientPlan, PatchClientPlan, DeleteClientPlan;
    CompletedSound(d, w, r, o);
    match r
    case CreateInstance(req) => CreateInstanceSteady(d, w, req, o);
    case PatchInstance(name, body) => PatchCallSteady(d, w, name, body, o);
    case DeleteInstance(name) => DeleteCallSteady(d, w, name);
    case CreateClient(name, req) => CreateClientSteady(d, w, name, req, o);
    case PatchClient(name, cn, body) => PatchClientSteady(d, w, name, cn, body, o);
    case DeleteClient(name, cn) => DeleteClientSteady(d, w, name, cn);
  }

  lemma PatchCallSteady(d: Dirs, w: State, name: string, body: Body, o: Outside)
    requires Steady(d, w)
    ensures var v := Exec(w, PatchInstancePlan(d, w, name, body, o).steps);
            ConfExact(d, v) && PinsExact(v) && CrlExact(v) && CaSeeded(v) && SerialsLive(v)
  {
    hide Sound, Synced, ConfExact, PinsExact, CrlExact, CaSeeded, SerialsLive, Exec, Rendered, PatchInstancePlan,
         Patched;
    ExecNone(w);
    if name in w.mem.instances && Rendered(d, Patched(w.mem.instances[name], body)).Some? {
      PatchSteady(d, w, name, body, o);
    } else {
      RefusedPatch(d, w, name, body, o);
    }
  }

  /**
   * A patch that is refused, because the new record does not render or there is no
   * such instance, takes no step at all.
   */
  lemma RefusedPatch(d: Dirs, w: State, name: string, body: Body, o: Outside)
    ensures var c := PatchInstancePlan(d, w, name, body, o);
            && (c.error == Some(NotFound) <==> name !in w.mem.instances)
            && (c.error == Some(RenderFailed) <==>
                  name in w.mem.instances && Rendered(d, Patched(w.mem.instances[name], body)).None?)
            && (c.error in {Some(NotFound), Some(RenderFailed)} ==> c.steps == [])
  {
    hide Rendered, Patched, ListenersDiffer, PutInstance, SyncPins;
  }

  lemma DeleteCallSteady(d: Dirs, w: State, name: string)
    requires Steady(d, w)
    ensures var v := Exec(w, DeleteInstancePlan(w, name).steps);
            ConfExact(d, v) && PinsExact(v) && CrlExact(v) && CaSeeded(v) && SerialsLive(v)
  {
    hide Sound, Synced, ConfExact, PinsExact, CrlExact, CaSeeded, SerialsLive, Exec, Flush;
    ExecNone(w);
    if name in w.mem.instances {
      DeleteInstanceSteady(d, w, name);
    }
  }

  lemma CoreSound(d: Dirs, w: State, v: State)
    requires Steady(d, w) && SameCore(w, v) && v.issued == w.issued
    requires v.disk.certs == w.disk.certs && v.disk.keys == w.disk.keys
    ensures Steady(d, v)
  {
    SameCoreSteady(d, w, v);
    hide GoodData, HexKey, ConfExact, PinsExact, CrlExact, CaSeeded, SerialsLive, Numbers;
  }

  lemma ReconcileOneSteady(d: Dirs, w: State, b: Boot, n: string)
    requires Steady(d, w) && n in w.mem.instances
    ensures var v := Exec(w, ReconcileOne(d, w.mem, b, n)); Steady(d, v) && v.mem == w.mem
  {
    hide Rendered, Exec, StartInstance, PinsExact, CrlExact, CaSeeded, SerialsLive, Pinnable, PinsPresent, SameCore,
         GoodData, IssuedKept, RevokedIssued, CrlWithin, Quiet;
    ExecNone(w);
    if w.mem.instances[n].enabled {
      var rec := w.mem.instances[n];
      var steps := ReconcileOne(d, w.mem, b, n);
      RecordFacts(d, w.mem, w.issued, n);
      SteadyPins(d, w, n);
      StartInPlace(d, w, w.mem, rec, ClientOrder(b, n), n in b.starts, false);
      StartQuiet(d, w.mem, rec, ClientOrder(b, n), n in b.starts, false);
      QuietSafe(d, w, steps, w.mem, {});
      CoreSound(d, w, Exec(w, steps));
    }
  }

  lemma {:induction false} ReconcileSteady(d: Dirs, w: State, b: Boot, order: seq<string>)
    requires Steady(d, w) && forall n | n in order :: n in w.mem.instances
    ensures var v := Exec(w, ReconcilePlan(d, w.mem, b, order)); Steady(d, v)
    decreases |order|
  {
    hide Steady, ReconcileOne;
    if order != [] {
      var first, rest := ReconcileOne(d, w.mem, b, order[0]), ReconcilePlan(d, w.mem, b, order[1..]);
      ReconcileOneSteady(d, w, b, order[0]);
      ReconcileSteady(d, Exec(w, first), b, order[1..]);
      ExecAppend(w, first, rest);
    }
  }

  lemma RestartSteady(d: Dirs, w: State)
    requires Steady(d, w)
    ensures Steady(d, Down(w, w.disk))
  {
    CoreOfDown(d, w);
    CoreSound(d, w, Down(w, w.disk));
  }

  lemma CoreOfDown(d: Dirs, w: State)
    requires Steady(d, w)
    ensures SameCore(w, Down(w, w.disk))
  {
    hide GoodData, IssuedKept, RevokedIssued, CrlWithin, ConfExact, PinsExact, CrlExact, CaSeeded, SerialsLive;
  }

  lemma DiedSteady(d: Dirs, w: State, name: string)
    requires Steady(d, w)
    ensures Steady(d, Died(w, name))
  {
    CoreSound(d, w, Died(w, name));
  }

  /**
   * In every run without a crash, with processes dying and failing to start at will,
   * files and records agree exactly.
   */
  lemma {:induction false} RunSteady(d: Dirs, w: State, events: seq<Event>)
    requires Steady(d, w) && IsRun(d, w, events) && CrashFree(events)
    ensures Steady(d, After(d, w, events))
    decreases |events|
  {
    hide Steady, Plan, Exec, Admissible, ReconcilePlan, Died, Down;
    if events != [] {
      var e := events[0];
      match e {
        case ApiCall(r, o) => CallSteady(d, w, r, o);
        case Dies(name) => DiedSteady(d, w, name);
        case Restart => RestartSteady(d, w);
        case Reconcile(b) =>
          assert forall n | n in b.order :: n in (set x | x in b.order);
          ReconcileSteady(d, w, b, b.order);
        case _ =>
      }
      RunSteady(d, Next(d, w, e), events[1..]);
    }
  }
}
