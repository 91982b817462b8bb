/** What Reconcile rebuilds, and the state after a crash, a reboot and a Reconcile. */
module Recovery {
  import opened Wrappers
  import opened Records
  import opened Config
  import opened World
  import opened Plans
  import opened Durable
  import opened Crash

  // ------------------------------------------------ rebuilding pins

  // Clients filed under their own name, all of them pinnable.
  predicate Pinnable(clients: map<string, Client>) {
    forall cn | cn in clients ::
      && clients[cn].commonName == cn
      && GoodName(cn)
      && (Unpinned(clients[cn].staticIp) || PinFor(clients[cn].staticIp).Some?)
  }

  predicate HasPin(clients: map<string, Client>, cn: string) {
    cn in clients && !Unpinned(clients[cn].staticIp) && PinFor(clients[cn].staticIp).Some?
  }

  predicate PinRight(pins: map<Slot, string>, clients: map<string, Client>, slot: Slot)
    requires HasPin(clients, slot.key)
  {
    slot in pins && pins[slot] == PinFor(clients[slot.key].staticIp).value
  }

  predicate SameAt(a: map<Slot, string>, b: map<Slot, string>, slot: Slot) {
    (slot in a <==> slot in b) && (slot in a ==> a[slot] == b[slot])
  }

  // What a sync over some of the clients does to the pins.
  ghost predicate PinsSynced(
      before: map<Slot, string>, after: map<Slot, string>, clients: map<string, Client>, name: string,
          order: seq<string>)
  {
    forall slot: Slot ::
      if slot.instance == name && slot.key in order && HasPin(clients, slot.key)
      then PinRight(after, clients, slot)
      else SameAt(before, after, slot)
  }

  lemma SyncOneResult(w: State, clients: map<string, Client>, name: string, cn: string)
    requires Pinnable(clients)
    ensures var v := Exec(w, SyncOne(clients, name, cn));
            && v == w.(disk := w.disk.(pins := v.disk.pins))
            && PinsSynced(w.disk.pins, v.disk.pins, clients, name, [cn])
  {
    hide GoodName, PinFor, Unpinned;
    if HasPin(clients, cn) {
      ExecOne(w, WritePin(Slot(name, cn), PinFor(clients[cn].staticIp).value));
    }
  }

  lemma NothingSynced(pins: map<Slot, string>, clients: map<string, Client>, name: string)
    ensures PinsSynced(pins, pins, clients, name, [])
  {
    hide HasPin;
  }

  lemma SyncedInTurn(a: map<Slot, string>, b: map<Slot, string>, c: map<Slot, string>, clients: map<string, Client>,
                     name: string, first: seq<string>, rest: seq<string>)
    requires PinsSynced(a, b, clients, name, first) && PinsSynced(b, c, clients, name, rest)
    ensures PinsSynced(a, c, clients, name, first + rest)
  {
    hide HasPin;
    forall slot: Slot
      ensures if slot.instance == name && slot.key in first + rest && HasPin(clients, slot.key)
              then PinRight(c, clients, slot)
              else SameAt(a, c, slot)
    {
      assert slot.key in first + rest <==> slot.key in first || slot.key in rest;
    }
  }

  lemma {:induction false} SyncPinsResult(w: State, clients: map<string, Client>, name: string, order: seq<string>)
    requires Pinnable(clients)
    ensures var v := Exec(w, SyncPins(clients, name, order));
            && v == w.(disk := w.disk.(pins := v.disk.pins))
            && PinsSynced(w.disk.pins, v.disk.pins, clients, name, order)
    decreases |order|
  {
    hide Pinnable, SyncOne, PinsSynced;
    if order == [] {
      NothingSynced(w.disk.pins, clients, name);
    } else {
      var first, rest := SyncOne(clients, name, order[0]), SyncPins(clients, name, order[1..]);
      var w1 := Exec(w, first);
      SyncOneResult(w, clients, name, order[0]);
      SyncPinsResult(w1, clients, name, order[1..]);
      ExecAppend(w, first, rest);
      assert order == [order[0]] + order[1..];
      SyncedInTurn(w.disk.pins, w1.disk.pins, Exec(w1, rest).disk.pins, clients, name, [order[0]], order[1..]);
    }
  }

  // ------------------------------------------------ rebuilding one instance

  lemma RecordFacts(d: Dirs, data: StoreData, issued: map<Slot, string>, n: string)
    requires GoodData(d, data, issued)
    ensures Pinnable(ClientsOf(data, n))
    ensures n in data.instances ==> data.instances[n].name == n && Rendered(d, data.instances[n]).Some?
  {
    hide GoodName, PinFor, Unpinned, Rendered;
  }

  lemma WriteConfigResult(d: Dirs, w: State, mem: StoreData, rec: Instance, order: seq<string>)
    requires Rendered(d, rec).Some? && Pinnable(ClientsOf(mem, rec.name))
    ensures WriteConfig(d, mem, rec, order).error.None?
    ensures var v := Exec(w, WriteConfig(d, mem, rec, order).steps);
            && v == w.(disk := w.disk.(pins := v.disk.pins, conf := w.disk.conf[rec.name := Rendered(d, rec).value]))
            && PinsSynced(w.disk.pins, v.disk.pins, ClientsOf(mem, rec.name), rec.name, order)
  {
    hide Rendered, PinsSynced, Pinnable;
    var clients := ClientsOf(mem, rec.name);
    var s := WriteConf(rec.name, Rendered(d, rec).value);
    var w1 := Exec(w, SyncPins(clients, rec.name, order));
    SyncPinsResult(w, clients, rec.name, order);
    ExecAppend(w, SyncPins(clients, rec.name, order), [s]);
    ExecOne(w1, s);
  }

  // The files and the process of an enabled instance are what its record says.
  ghost predicate Restored(d: Dirs, w: State, n: string)
    requires n in w.mem.instances
  {
    w.mem.instances[n].enabled ==>
      && n in w.disk.conf && Some(w.disk.conf[n]) == Rendered(d, w.mem.instances[n])
      && forall cn | HasPin(ClientsOf(w.mem, n), cn) :: PinRight(w.disk.pins, ClientsOf(w.mem, n), Slot(n, cn))
  }

  lemma ReconcileOneRestores(d: Dirs, w: State, b: Boot, n: string)
    requires GoodData(d, w.mem, w.issued) && BootAdmissible(w.mem, b) && n in w.mem.instances
    ensures var v := Exec(w, ReconcileOne(d, w.mem, b, n));
            && v == w.(disk := w.disk.(pins := v.disk.pins, conf := v.disk.conf), procs := v.procs,
                nextPid := v.nextPid)
            && Restored(d, v, n)
            && forall m | m in w.mem.instances && m != n && Restored(d, w, m) :: Restored(d, v, m)
  {
    hide Rendered, Started, GoodData, PinsSynced, Restored, Exec, Pinnable, WriteConfig, Enumerates;
    RecordFacts(d, w.mem, w.issued, n);
    var rec := w.mem.instances[n];
    if rec.enabled {
      var order := ClientOrder(b, n);
      var conf := WriteConfig(d, w.mem, rec, order);
      var w1 := Exec(w, conf.steps);
      WriteConfigResult(d, w, w.mem, rec, order);
      ExecAppend(w, conf.steps, [StartProcess(n, n in b.starts)]);
      ExecOne(w1, StartProcess(n, n in b.starts));
      StartedFrame(w1, n, n in b.starts);
      var v := Exec(w, ReconcileOne(d, w.mem, b, n));
      OneRestored(d, w, v, n, order);
    } else {
      assert ReconcileOne(d, w.mem, b, n) == [];
      ExecNone(w);
      DisabledRestored(d, w, n);
    }
  }

  lemma StartedFrame(w: State, n: string, starts: bool)
    ensures var v := Started(w, n, starts); v == w.(procs := v.procs, nextPid := v.nextPid)
  {
    hide Bound;
  }

  lemma DisabledRestored(d: Dirs, w: State, n: string)
    requires n in w.mem.instances && !w.mem.instances[n].enabled
    ensures Restored(d, w, n)
  {
    hide Rendered, HasPin, PinRight;
  }

  lemma OneRestored(d: Dirs, w: State, v: State, n: string, order: seq<string>)
    requires v.mem == w.mem && n in w.mem.instances
    requires Rendered(d, w.mem.instances[n]).Some?
    requires v.disk.conf == w.disk.conf[n := Rendered(d, w.mem.instances[n]).value]
    requires PinsSynced(w.disk.pins, v.disk.pins, ClientsOf(w.mem, n), n, order)
    requires Enumerates(order, ClientsOf(w.mem, n).Keys)
    ensures Restored(d, v, n)
    ensures forall m | m in w.mem.instances && m != n && Restored(d, w, m) :: Restored(d, v, m)
  {
    hide Rendered, HasPin, PinRight, PinsSynced;
    PinsOfOrder(w, v, n, order);
  }

  lemma PinsOfOrder(w: State, w1: State, n: string, order: seq<string>)
    requires PinsSynced(w.disk.pins, w1.disk.pins, ClientsOf(w.mem, n), n, order)
    requires Enumerates(order, ClientsOf(w.mem, n).Keys)
    ensures forall cn | HasPin(ClientsOf(w.mem, n), cn) :: PinRight(w1.disk.pins, ClientsOf(w.mem, n), Slot(n, cn))
    ensures forall slot: Slot | slot.instance != n :: SameAt(w.disk.pins, w1.disk.pins, slot)
    ensures forall m, cn | m != n && HasPin(ClientsOf(w.mem, m), cn)
        && PinRight(w.disk.pins, ClientsOf(w.mem, m), Slot(m, cn)) ::
              PinRight(w1.disk.pins, ClientsOf(w.mem, m), Slot(m, cn))
  {
    hide PinFor, Unpinned;
    forall cn | HasPin(ClientsOf(w.mem, n), cn)
      ensures PinRight(w1.disk.pins, ClientsOf(w.mem, n), Slot(n, cn))
    {
      assert cn in (set x | x in order);
    }
    forall m, cn | m != n && HasPin(ClientsOf(w.mem, m), cn) && PinRight(w.disk.pins, ClientsOf(w.mem, m), Slot(m, cn))
      ensures PinRight(w1.disk.pins, ClientsOf(w.mem, m), Slot(m, cn))
    {
      assert SameAt(w.disk.pins, w1.disk.pins, Slot(m, cn));
    }
  }

  lemma {:induction false} ReconcileRestores(d: Dirs, w: State, b: Boot, order: seq<string>)
    requires GoodData(d, w.mem, w.issued) && BootAdmissible(w.mem, b)
    requires forall n | n in order :: n in w.mem.instances
    ensures var v := Exec(w, ReconcilePlan(d, w.mem, b, order));
            && v == w.(disk := w.disk.(pins := v.disk.pins, conf := v.disk.conf), procs := v.procs,
                nextPid := v.nextPid)
            && (forall n | n in order :: Restored(d, v, n))
            && (forall m | m in w.mem.instances && Restored(d, w, m) :: Restored(d, v, m))
    decreases |order|
  {
    hide GoodData, BootAdmissible, Restored, ReconcileOne;
    if order != [] {
      var first, rest := ReconcileOne(d, w.mem, b, order[0]), ReconcilePlan(d, w.mem, b, order[1..]);
      var w1 := Exec(w, first);
      ReconcileOneRestores(d, w, b, order[0]);
      ReconcileRestores(d, w1, b, order[1..]);
      ExecAppend(w, first, rest);
    }
  }

  lemma {:induction false} ReconcileQuiet(d: Dirs, mem: StoreData, b: Boot, order: seq<string>)
    ensures AllQuiet(ReconcilePlan(d, mem, b, order))
  {
    hide Quiet, StartInstance;
    if order != [] {
      var n := order[0];
      if n in mem.instances {
        StartQuiet(d, mem, mem.instances[n], ClientOrder(b, n), n in b.starts, false);
      }
      ReconcileQuiet(d, mem, b, order[1..]);
    }
  }

  // ------------------------------------------------ crashes

  // The files after a crash in the middle of a plan; the temporary store file may be torn.
  function CrashDisk(w: State, steps: seq<Step>, k: nat, torn: bool): Disk
    requires k <= |steps|
  {
    var disk := Exec(w, steps[..k]).disk;
    if torn && k < |steps| && steps[k].WriteTmp? then disk.(tmp := Some(Torn)) else disk
  }

  // Reboot after such a crash. Bundles noted before the crash stay noted.
  function Crashed(w: State, steps: seq<Step>, k: nat, torn: bool): State
    requires k <= |steps|
  {
    Down(Exec(w, steps[..k]), CrashDisk(w, steps, k, torn))
  }

  function Rebooted(d: Dirs, w: State, b: Boot): State {
    Exec(w, ReconcilePlan(d, w.mem, b, b.order))
  }

  lemma CrashedSound(d: Dirs, w: State, r: Request, o: Outside, k: nat, torn: bool)
    requires Sound(d, w) && Synced(w) && Admissible(w, r, o)
    requires k <= |Plan(d, w, r, o).steps|
    ensures var steps := Plan(d, w, r, o).steps;
            var post := Exec(w, steps).mem;
            var v := Crashed(w, steps, k, torn);
            && Sound(d, v) && Synced(v)
            && (v.mem == w.mem || (v.mem == post && AllRevoked(v.disk, Lost(r, w.mem, post))))
  {
    hide Plan, SafePlan, Exec, Admissible, GoodData;
    var steps := Plan(d, w, r, o).steps;
    var post := Exec(w, steps).mem;
    var lost := Lost(r, w.mem, post);
    PlanSafe(d, w, r, o);
    SafePrefix(d, w, steps, k, w.disk.state, post, lost);
  }

  /**
   * Crash recovery. Whatever call was interrupted, and wherever, after reading
   * the store back and reconciling: the records are exactly those before or
   * after the call, every enabled instance has the config and the pins its
   * record asks for, every certificate lost with a deleted client is revoked,
   * and the CRL lists revoked serials only.
   */
  lemma CrashRecovers(d: Dirs, w: State, r: Request, o: Outside, k: nat, torn: bool, b: Boot)
    requires Sound(d, w) && Synced(w) && Admissible(w, r, o)
    requires k <= |Plan(d, w, r, o).steps|
    requires BootAdmissible(Crashed(w, Plan(d, w, r, o).steps, k, torn).mem, b)
    ensures var steps := Plan(d, w, r, o).steps;
            var post := Exec(w, steps).mem;
            var v := Rebooted(d, Crashed(w, steps, k, torn), b);
            && (v.mem == w.mem || v.mem == post)
            && v.mem == Open(v.disk)
            && (forall n | n in v.mem.instances :: Restored(d, v, n))
            && (v.mem != w.mem ==> AllRevoked(v.disk, Lost(r, w.mem, post)))
            && CrlWithin(v.disk)
  {
    hide Plan, Exec, Admissible, GoodData, Restored, ReconcilePlan, Lost, CrlWithin;
    var v := Crashed(w, Plan(d, w, r, o).steps, k, torn);
    CrashedSound(d, w, r, o, k, torn);
    assert forall n | n in b.order :: n in (set x | x in b.order);
    ReconcileRestores(d, v, b, b.order);
    CrlSame(v.disk, Rebooted(d, v, b).disk);
  }

  lemma CrlSame(a: Disk, b: Disk)
    requires a.crl == b.crl && a.revoked == b.revoked && CrlWithin(a)
    ensures CrlWithin(b)
  {
  }
}
