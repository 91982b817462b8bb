/**
 * What the files satisfy between any two durable writes, so also after a crash
 * at any point of any call.
 */
module Durable {
  import opened Wrappers
  import opened Records
  import opened Config
  import opened World
  import opened Plans
  import Numerals

  // ------------------------------------------------ the invariant

  ghost predicate HexKey(key: string) {
    exists k: nat :: key == Numerals.Hex(k)
  }

  // The records agree with the keys they are stored under.
  predicate Shape(data: StoreData) {
    && data.instances.Keys == data.clients.Keys
    && (forall n | n in data.instances :: data.instances[n].name == n)
    && (forall n, cn | n in data.clients && cn in data.clients[n] ::
          data.clients[n][cn].commonName == cn && data.clients[n][cn].instanceName == n)
  }

  predicate GoodClient(c: Client, issued: map<Slot, string>) {
    && GoodName(c.commonName)
    && (Unpinned(c.staticIp) || PinFor(c.staticIp).Some?)
    && (c.certSerial == "" || Slot(c.instanceName, c.certSerial) in issued)
  }

  ghost predicate GoodData(d: Dirs, data: StoreData, issued: map<Slot, string>) {
    && Shape(data)
    && (forall n | n in data.instances :: Rendered(d, data.instances[n]).Some?)
    && (forall n, cn | n in data.clients && cn in data.clients[n] :: GoodClient(data.clients[n][cn], issued))
  }

  // Every issued certificate can still be reassembled from disk, byte for byte.
  ghost predicate IssuedKept(disk: Disk, issued: map<Slot, string>) {
    forall slot | slot in issued ::
      && HexKey(slot.key)
      && CaLoads(disk, slot.instance)
      && slot in disk.certs && slot in disk.keys
      && issued[slot] == disk.certs[slot] + disk.keys[slot] + disk.caCert[slot.instance]
  }

  predicate RevokedIssued(disk: Disk, issued: map<Slot, string>) {
    forall n, h | n in disk.revoked && h in disk.revoked[n] :: Slot(n, h) in issued
  }

  predicate CrlWithin(disk: Disk) {
    forall n | n in disk.crl :: disk.crl[n] <= Numbers(RevokedOf(disk, n))
  }

  ghost predicate Sound(d: Dirs, w: State) {
    && GoodData(d, Open(w.disk), w.issued)
    && IssuedKept(w.disk, w.issued)
    && RevokedIssued(w.disk, w.issued)
    && CrlWithin(w.disk)
  }

  // ------------------------------------------------ single steps

  // Steps that touch neither the store file nor the certificate files.
  predicate Quiet(s: Step) {
    || s.WriteConf? || s.RemoveConf? || s.WritePin? || s.RemovePin? || s.WritePasswd?
    || s.WriteServerCert? || s.WriteServerKey?
    || s.StartProcess? || s.StopProcess? || s.Hangup?
  }

  predicate AllRevoked(disk: Disk, slots: set<Slot>) {
    forall slot | slot in slots :: slot.key in RevokedOf(disk, slot.instance)
  }

  // When a step may be taken: post is the store the call is about to commit,
  // lost the certificates that commit drops for good.
  ghost predicate StepOk(d: Dirs, w: State, s: Step, post: StoreData, lost: set<Slot>) {
    match s
    case WriteTmp(data) => data == post
    case RenameTmp => w.disk.tmp == Some(Whole(post)) && GoodData(d, post, w.issued) && AllRevoked(w.disk, lost)
    case WriteRevoked(n, serials) =>
      RevokedOf(w.disk, n) <= serials && forall h | h in serials :: Slot(n, h) in w.issued
    case WriteCrl(n, numbers) => numbers <= Numbers(RevokedOf(w.disk, n))
    case WriteCaCert(n, _) => forall slot | slot in w.issued :: slot.instance != n
    case WriteCaKey(n, _) => forall slot | slot in w.issued :: slot.instance != n
    case WriteCert(slot, _) => slot !in w.issued
    case WriteKey(slot, _) => slot !in w.issued
    case NoteIssued(slot, bundle) =>
      && slot !in w.issued
      && HexKey(slot.key)
      && CaLoads(w.disk, slot.instance)
      && slot in w.disk.certs && slot in w.disk.keys
      && bundle == w.disk.certs[slot] + w.disk.keys[slot] + w.disk.caCert[slot.instance]
    case _ => true
  }

  lemma NumbersMonotone(a: set<string>, b: set<string>)
    requires a <= b
    ensures Numbers(a) <= Numbers(b)
  {
  }

  lemma GoodDataMonotone(d: Dirs, data: StoreData, issued: map<Slot, string>, slot: Slot, bundle: string)
    requires GoodData(d, data, issued)
    ensures GoodData(d, data, issued[slot := bundle])
  {
    hide Rendered, GoodName, PinFor;
  }

  // The store file is the one before the call, or already the one it commits.
  predicate AtBoundary(before: Option<StoreData>, w: State, post: StoreData, lost: set<Slot>) {
    w.disk.state == before || (w.disk.state == Some(post) && AllRevoked(w.disk, lost))
  }

  // Steps that write certificates or note one.
  predicate CertStep(s: Step) {
    s.WriteCaCert? || s.WriteCaKey? || s.WriteCert? || s.WriteKey? || s.NoteIssued?
  }

  lemma OtherStepKeepsCerts(w: State, s: Step)
    requires !CertStep(s)
    ensures var v := Apply(w, s);
            && v.issued == w.issued
            && v.disk.certs == w.disk.certs && v.disk.keys == w.disk.keys
            && v.disk.caCert == w.disk.caCert && v.disk.caKey == w.disk.caKey
  {
    hide Started, Stopped, Reloaded;
    ProcessFrame(w, s);
  }

  lemma CaStepKeepsFiles(d: Dirs, w: State, s: Step, post: StoreData, lost: set<Slot>)
    requires IssuedKept(w.disk, w.issued) && (s.WriteCaCert? || s.WriteCaKey?) && StepOk(d, w, s, post, lost)
    ensures IssuedKept(Apply(w, s).disk, Apply(w, s).issued)
  {
    hide HexKey, Started, Stopped, Reloaded;
  }

  lemma CertStepKeepsFiles(d: Dirs, w: State, s: Step, post: StoreData, lost: set<Slot>)
    requires IssuedKept(w.disk, w.issued) && CertStep(s) && StepOk(d, w, s, post, lost)
    ensures IssuedKept(Apply(w, s).disk, Apply(w, s).issued)
  {
    if s.WriteCaCert? || s.WriteCaKey? {
      hide *;
      CaStepKeepsFiles(d, w, s, post, lost);
    } else {
      hide HexKey, Started, Stopped, Reloaded;
    }
  }

  lemma SameCertsKept(a: State, b: State)
    requires IssuedKept(a.disk, a.issued) && b.issued == a.issued
    requires b.disk.certs == a.disk.certs && b.disk.keys == a.disk.keys
    requires b.disk.caCert == a.disk.caCert && b.disk.caKey == a.disk.caKey
    ensures IssuedKept(b.disk, b.issued)
  {
    hide HexKey;
  }

  lemma StepKeepsFiles(d: Dirs, w: State, s: Step, post: StoreData, lost: set<Slot>)
    requires Sound(d, w) && StepOk(d, w, s, post, lost)
    ensures IssuedKept(Apply(w, s).disk, Apply(w, s).issued)
  {
    hide GoodData, IssuedKept, RevokedIssued, CrlWithin, StepOk, Apply, CertStep;
    if CertStep(s) {
      CertStepKeepsFiles(d, w, s, post, lost);
    } else {
      OtherStepKeepsCerts(w, s);
      SameCertsKept(w, Apply(w, s));
    }
  }

  lemma ProcessFrame(w: State, s: Step)
    ensures s.StartProcess? || s.StopProcess? || s.Hangup? ==>
              Apply(w, s) == w.(procs := Apply(w, s).procs, nextPid := Apply(w, s).nextPid)
  {
    hide Bound, ConfOnDisk, CrlOf;
  }

  lemma StepKeepsRevoked(d: Dirs, w: State, s: Step, post: StoreData, lost: set<Slot>)
    requires Sound(d, w) && StepOk(d, w, s, post, lost)
    ensures RevokedIssued(Apply(w, s).disk, Apply(w, s).issued)
  {
    hide GoodData, HexKey, Numbers, Bound, CrlWithin, IssuedKept, Started, Stopped, Reloaded;
    ProcessFrame(w, s);
  }

  // A safe step never takes a serial out of revoked.json.
  lemma RevokedGrows(d: Dirs, w: State, s: Step, post: StoreData, lost: set<Slot>)
    requires StepOk(d, w, s, post, lost)
    ensures forall n: string :: RevokedOf(w.disk, n) <= RevokedOf(Apply(w, s).disk, n)
    ensures forall slots: set<Slot> | AllRevoked(w.disk, slots) :: AllRevoked(Apply(w, s).disk, slots)
  {
    hide GoodData, Numbers, HexKey, Started, Stopped, Reloaded;
    ProcessFrame(w, s);
  }

  lemma StepKeepsStore(d: Dirs, w: State, s: Step, before: Option<StoreData>, post: StoreData, lost: set<Slot>)
    requires Sound(d, w) && StepOk(d, w, s, post, lost)
    requires AtBoundary(before, w, post, lost)
    ensures GoodData(d, Open(Apply(w, s).disk), Apply(w, s).issued)
    ensures AtBoundary(before, Apply(w, s), post, lost)
  {
    hide GoodData, IssuedKept, RevokedIssued, CrlWithin, Numbers, HexKey, Started, Stopped, Reloaded, AllRevoked;
    ProcessFrame(w, s);
    RevokedGrows(d, w, s, post, lost);
    if s.NoteIssued? {
      GoodDataMonotone(d, Open(w.disk), w.issued, s.slot, s.bundle);
    }
  }

  lemma StepKeepsCrl(d: Dirs, w: State, s: Step, post: StoreData, lost: set<Slot>)
    requires Sound(d, w) && StepOk(d, w, s, post, lost)
    ensures CrlWithin(Apply(w, s).disk)
  {
    hide GoodData, IssuedKept, RevokedIssued, Numbers, Bound, HexKey, Started, Stopped, Reloaded;
    ProcessFrame(w, s);
    if s.WriteRevoked? {
      NumbersMonotone(RevokedOf(w.disk, s.name), s.serials);
    }
  }

  lemma StepKeepsSound(d: Dirs, w: State, s: Step, before: Option<StoreData>, post: StoreData, lost: set<Slot>)
    requires Sound(d, w) && StepOk(d, w, s, post, lost)
    requires AtBoundary(before, w, post, lost)
    ensures Sound(d, Apply(w, s))
    ensures AtBoundary(before, Apply(w, s), post, lost)
  {
    hide GoodData, IssuedKept, RevokedIssued, CrlWithin, StepOk, Apply, AtBoundary;
    StepKeepsFiles(d, w, s, post, lost);
    StepKeepsRevoked(d, w, s, post, lost);
    StepKeepsCrl(d, w, s, post, lost);
    StepKeepsStore(d, w, s, before, post, lost);
  }

  // ------------------------------------------------ whole plans

  ghost predicate SafePlan(d: Dirs, w: State, steps: seq<Step>, post: StoreData, lost: set<Slot>)
    decreases |steps|
  {
    steps == [] || (StepOk(d, w, steps[0], post, lost) && SafePlan(d, Apply(w, steps[0]), steps[1..], post, lost))
  }

  lemma {:induction false} SafeAppend(d: Dirs, w: State, a: seq<Step>, b: seq<Step>, post: StoreData, lost: set<Slot>)
    requires SafePlan(d, w, a, post, lost) && SafePlan(d, Exec(w, a), b, post, lost)
    ensures SafePlan(d, w, a + b, post, lost)
    decreases |a|
  {
    hide StepOk, Apply;
    if a == [] {
      assert a + b == b;
    } else {
      assert (a + b)[1..] == a[1..] + b;
      SafeAppend(d, Apply(w, a[0]), a[1..], b, post, lost);
    }
  }

  lemma SafeOne(d: Dirs, w: State, a: Step, post: StoreData, lost: set<Slot>)
    requires StepOk(d, w, a, post, lost)
    ensures SafePlan(d, w, [a], post, lost)
  {
    hide StepOk, Apply;
    assert [a][1..] == [];
  }

  lemma SafeTwo(d: Dirs, w: State, a: Step, b: Step, post: StoreData, lost: set<Slot>)
    requires StepOk(d, w, a, post, lost) && StepOk(d, Apply(w, a), b, post, lost)
    ensures SafePlan(d, w, [a, b], post, lost)
  {
    hide *;
    SafeOne(d, w, a, post, lost);
    SafeOne(d, Apply(w, a), b, post, lost);
    ExecOne(w, a);
    SafeAppend(d, w, [a], [b], post, lost);
    assert [a] + [b] == [a, b];
  }

  lemma SafeThree(d: Dirs, w: State, a: Step, b: Step, c: Step, post: StoreData, lost: set<Slot>)
    requires StepOk(d, w, a, post, lost)
    requires StepOk(d, Apply(w, a), b, post, lost) && StepOk(d, Apply(Apply(w, a), b), c, post, lost)
    ensures SafePlan(d, w, [a, b, c], post, lost)
  {
    hide *;
    SafeTwo(d, w, a, b, post, lost);
    SafeOne(d, Apply(Apply(w, a), b), c, post, lost);
    ExecTwo(w, a, b);
    SafeAppend(d, w, [a, b], [c], post, lost);
    assert [a, b] + [c] == [a, b, c];
  }

  /** After any number of the steps of a safe plan the files are sound and the store is at a mutation boundary. */
  lemma {:induction false} SafePrefix(
      d: Dirs, w: State, steps: seq<Step>, k: nat, before: Option<StoreData>, post: StoreData, lost: set<Slot>)
    requires Sound(d, w) && SafePlan(d, w, steps, post, lost) && AtBoundary(before, w, post, lost)
    requires k <= |steps|
    ensures Sound(d, Exec(w, steps[..k]))
    ensures AtBoundary(before, Exec(w, steps[..k]), post, lost)
    decreases k
  {
    hide Sound, StepOk, Apply, AtBoundary;
    if k > 0 {
      StepKeepsSound(d, w, steps[0], before, post, lost);
      SafePrefix(d, Apply(w, steps[0]), steps[1..], k - 1, before, post, lost);
      assert steps[..k][1..] == steps[1..][..k - 1];
    }
  }

  // What a quiet step leaves alone.
  predicate SameFiles(w: State, v: State) {
    && v.mem == w.mem && v.issued == w.issued
    && v.disk.state == w.disk.state && v.disk.tmp == w.disk.tmp
    && v.disk.caCert == w.disk.caCert && v.disk.caKey == w.disk.caKey
    && v.disk.revoked == w.disk.revoked && v.disk.crl == w.disk.crl
    && v.disk.certs == w.disk.certs && v.disk.keys == w.disk.keys
  }

  predicate AllQuiet(steps: seq<Step>) {
    forall i | 0 <= i < |steps| :: Quiet(steps[i])
  }

  lemma QuietStep(d: Dirs, w: State, s: Step, post: StoreData, lost: set<Slot>)
    requires Quiet(s)
    ensures StepOk(d, w, s, post, lost) && SameFiles(w, Apply(w, s))
  {
    hide Bound, Started, Stopped, Reloaded;
    ProcessFrame(w, s);
  }

  lemma SameFilesInTurn(a: State, b: State, c: State)
    requires SameFiles(a, b) && SameFiles(b, c)
    ensures SameFiles(a, c)
  {
  }

  lemma {:induction false} QuietSafe(d: Dirs, w: State, steps: seq<Step>, post: StoreData, lost: set<Slot>)
    requires AllQuiet(steps)
    ensures SafePlan(d, w, steps, post, lost)
    ensures SameFiles(w, Exec(w, steps))
    decreases |steps|
  {
    if steps != [] {
      hide StepOk, Apply, SameFiles, Quiet;
      var u := Apply(w, steps[0]);
      QuietStep(d, w, steps[0], post, lost);
      QuietSafe(d, u, steps[1..], post, lost);
      SameFilesInTurn(w, u, Exec(u, steps[1..]));
    }
  }

  lemma NoneQuiet()
    ensures AllQuiet([])
  {
  }

  lemma ProcessQuiet(n: string)
    ensures Quiet(StopProcess(n)) && Quiet(Hangup(n)) && Quiet(RemoveConf(n))
  {
  }

  lemma FlushSafe(d: Dirs, w: State, post: StoreData, lost: set<Slot>)
    requires GoodData(d, post, w.issued) && AllRevoked(w.disk, lost)
    ensures SafePlan(d, w, Flush(post), post, lost)
    ensures Exec(w, Flush(post)) == w.(mem := post, disk := w.disk.(state := Some(post), tmp := None))
  {
    hide GoodData, SafePlan, Exec, Started, Stopped, Reloaded;
    SafeThree(d, w, SetMemory(post), WriteTmp(post), RenameTmp, post, lost);
    ExecThree(w, SetMemory(post), WriteTmp(post), RenameTmp);
  }

  lemma {:induction false} SyncQuiet(clients: map<string, Client>, name: string, order: seq<string>)
    ensures AllQuiet(SyncPins(clients, name, order))
  {
    if order != [] {
      SyncQuiet(clients, name, order[1..]);
    }
  }

  lemma StartQuiet(d: Dirs, mem: StoreData, rec: Instance, order: seq<string>, starts: bool, alive: bool)
    ensures AllQuiet(WriteConfig(d, mem, rec, order).steps)
    ensures AllQuiet(StartInstance(d, mem, rec, order, starts, alive).steps)
  {
    hide Rendered;
    SyncQuiet(ClientsOf(mem, rec.name), rec.name, order);
  }
}
