/**
 * The supervised processes: what each call means for them, whatever files were
 * left behind by earlier crashes.
 */
module Processes {
  import opened Wrappers
  import opened Records
  import opened Config
  import opened Sockets
  import opened World
  import opened Plans
  import opened Durable
  import opened Crash
  import opened Recovery
  import Text

  // ------------------------------------------------ what a process depends on

  datatype View = View(
    instances: map<string, Instance>,
    conf: map<string, string>,
    crl: map<string, set<int>>,
    procs: map<string, Process>,
    nextPid: nat)

  function See(w: State): View {
    View(w.mem.instances, w.disk.conf, w.disk.crl, w.procs, w.nextPid)
  }

  function CrlAt(v: View, n: string): set<int> {
    if n in v.crl then v.crl[n] else {}
  }

  function ConfAt(v: View, n: string): string {
    if n in v.conf then v.conf[n] else ""
  }

  predicate Up(v: View, n: string) {
    n in v.procs && v.procs[n].alive
  }

  function Start(v: View, n: string, starts: bool): View {
    if Up(v, n) || !starts then v
    else
      v.(procs := v.procs[n := Process(v.nextPid, true, Bound(ConfAt(v, n)), ConfAt(v, n), CrlAt(v, n))],
         nextPid := v.nextPid + 1)
  }

  function Reload(v: View, n: string): View {
    if Up(v, n) then v.(procs := v.procs[n := v.procs[n].(conf := ConfAt(v, n), crl := CrlAt(v, n))]) else v
  }

  function Stop(v: View, n: string): View {
    v.(procs := v.procs - {n})
  }

  function Configured(v: View, n: string, text: string): View {
    v.(conf := v.conf[n := text])
  }

  lemma SeeStarted(w: State, n: string, starts: bool)
    ensures See(Apply(w, StartProcess(n, starts))) == Start(See(w), n, starts)
  {
    hide Bound, Stopped, Reloaded, ApplyDisk;
  }

  lemma SeeReloaded(w: State, n: string)
    ensures See(Apply(w, Hangup(n))) == Reload(See(w), n)
  {
    hide Bound, Stopped, Started, ApplyDisk;
  }

  lemma SeeStopped(w: State, n: string)
    ensures See(Apply(w, StopProcess(n))) == Stop(See(w), n)
  {
    hide Bound, Started, Reloaded, ApplyDisk;
  }

  lemma SeeStart(w: State, n: string, starts: bool)
    ensures See(Apply(w, StartProcess(n, starts))) == Start(See(w), n, starts)
    ensures See(Apply(w, Hangup(n))) == Reload(See(w), n)
    ensures See(Apply(w, StopProcess(n))) == Stop(See(w), n)
  {
    hide *;
    SeeStarted(w, n, starts);
    SeeReloaded(w, n);
    SeeStopped(w, n);
  }

  // Steps no process notices.
  predicate Unseen(s: Step) {
    || s.WritePin? || s.RemovePin? || s.WriteCaCert? || s.WriteCaKey? || s.WriteServerCert? || s.WriteServerKey?
    || s.WriteRevoked? || s.WriteCert? || s.WriteKey? || s.NoteIssued? || s.WritePasswd? || s.WriteTmp? || s.RenameTmp?
  }

  predicate AllUnseen(steps: seq<Step>) {
    forall i | 0 <= i < |steps| :: Unseen(steps[i])
  }

  lemma UnseenStep(w: State, s: Step)
    requires Unseen(s)
    ensures See(Apply(w, s)) == See(w)
  {
    hide Started, Stopped, Reloaded, ApplyDisk;
    UnseenWrite(w.disk, s);
  }

  predicate CertFile(s: Step) {
    || s.WriteCaCert? || s.WriteCaKey? || s.WriteServerCert? || s.WriteServerKey? || s.WriteCert? || s.WriteKey?
  }

  lemma CertUnseen(disk: Disk, s: Step)
    requires CertFile(s)
    ensures ApplyDisk(disk, s).conf == disk.conf && ApplyDisk(disk, s).crl == disk.crl
  {
  }

  lemma OtherUnseen(disk: Disk, s: Step)
    requires Unseen(s) && !CertFile(s)
    ensures ApplyDisk(disk, s).conf == disk.conf && ApplyDisk(disk, s).crl == disk.crl
  {
  }

  lemma UnseenWrite(disk: Disk, s: Step)
    requires Unseen(s)
    ensures ApplyDisk(disk, s).conf == disk.conf && ApplyDisk(disk, s).crl == disk.crl
  {
    hide ApplyDisk;
    if CertFile(s) {
      CertUnseen(disk, s);
    } else {
      OtherUnseen(disk, s);
    }
  }

  lemma {:induction false} UnseenSteps(w: State, steps: seq<Step>)
    requires AllUnseen(steps)
    ensures See(Exec(w, steps)) == See(w)
    decreases |steps|
  {
    hide Apply, See, Unseen;
    if steps != [] {
      UnseenStep(w, steps[0]);
      UnseenSteps(Apply(w, steps[0]), steps[1..]);
    }
  }

  lemma UnseenAppend(a: seq<Step>, b: seq<Step>)
    requires AllUnseen(a) && AllUnseen(b)
    ensures AllUnseen(a + b)
  {
    hide Unseen;
  }

  // ------------------------------------------------ the pieces of the calls

  lemma SeeMemory(w: State, data: StoreData)
    ensures See(Apply(w, SetMemory(data))) == See(w).(instances := data.instances)
  {
    hide Started, Stopped, Reloaded, ApplyDisk;
  }

  lemma SeeCrl(w: State, n: string, numbers: set<int>)
    ensures See(Apply(w, WriteCrl(n, numbers))) == See(w).(crl := w.disk.crl[n := numbers])
  {
    hide Started, Stopped, Reloaded;
  }

  lemma SeeFlush(w: State, data: StoreData)
    ensures See(Exec(w, Flush(data))) == See(w).(instances := data.instances)
  {
    hide Exec, Apply, See;
    var u := Apply(w, SetMemory(data));
    ExecThree(w, SetMemory(data), WriteTmp(data), RenameTmp);
    SeeMemory(w, data);
    UnseenStep(u, WriteTmp(data));
    UnseenStep(Apply(u, WriteTmp(data)), RenameTmp);
  }

  lemma SeeWriteConf(w: State, n: string, text: string)
    ensures See(Apply(w, WriteConf(n, text))) == Configured(See(w), n, text)
    ensures See(Apply(w, RemoveConf(n))) == See(w).(conf := w.disk.conf - {n})
  {
    hide Started, Stopped, Reloaded;
  }

  lemma {:induction false} SyncUnseen(clients: map<string, Client>, name: string, order: seq<string>)
    ensures AllUnseen(SyncPins(clients, name, order))
  {
    hide GoodName, PinFor, Unpinned;
    if order != [] {
      SyncUnseen(clients, name, order[1..]);
    }
  }

  lemma SeeConfig(d: Dirs, w: State, mem: StoreData, rec: Instance, order: seq<string>)
    requires Rendered(d, rec).Some?
    ensures See(Exec(w, WriteConfig(d, mem, rec, order).steps)) == Configured(See(w), rec.name, Rendered(d, rec).value)
  {
    hide Rendered, Exec, SyncPins, See, Apply, Configured;
    var sync := SyncPins(ClientsOf(mem, rec.name), rec.name, order);
    var s := WriteConf(rec.name, Rendered(d, rec).value);
    SyncUnseen(ClientsOf(mem, rec.name), rec.name, order);
    ExecAppend(w, sync, [s]);
    UnseenSteps(w, sync);
    ExecOne(Exec(w, sync), s);
    SeeWriteConf(Exec(w, sync), rec.name, Rendered(d, rec).value);
  }

  lemma SeeStartInstance(d: Dirs, w: State, mem: StoreData, rec: Instance, order: seq<string>, starts: bool,
      alive: bool)
    requires Rendered(d, rec).Some?
    ensures var c := StartInstance(d, mem, rec, order, starts, alive);
            && (c.error.None? <==> alive || starts)
            && See(Exec(w, c.steps)) == Start(Configured(See(w), rec.name, Rendered(d, rec).value), rec.name, starts)
  {
    hide Rendered, Exec, WriteConfig, See, Apply, Configured, Start;
    var conf := WriteConfig(d, mem, rec, order);
    var s := StartProcess(rec.name, starts);
    RenderedConfig(d, mem, rec, order);
    SeeConfig(d, w, mem, rec, order);
    ExecAppend(w, conf.steps, [s]);
    ExecOne(Exec(w, conf.steps), s);
    SeeStart(Exec(w, conf.steps), rec.name, starts);
  }

  // ------------------------------------------------ the invariant

  // Sockets opened on the config of r still fit rec.
  ghost predicate StartedFrom(d: Dirs, r: Instance, rec: Instance, bound: Lines, clean: bool) {
    && !ListenersDiffer(r, rec)
    && Rendered(d, r).Some? && bound == Bound(Rendered(d, r).value)
    && (clean ==> Clean(d, r))
  }

  // A process serves its stored, enabled instance: its config file is the render of the record, it has read
  // that file and the current CRL, and it was started from a record with the same listener settings.
  ghost predicate Serving(d: Dirs, v: View, n: string, clean: bool)
    requires n in v.procs
  {
    && n in v.instances && v.instances[n].enabled
    && n in v.conf && Some(v.conf[n]) == Rendered(d, v.instances[n])
    && v.procs[n].conf == v.conf[n] && v.procs[n].crl == CrlAt(v, n)
    && exists r: Instance :: StartedFrom(d, r, v.instances[n], v.procs[n].bound, clean)
  }

  ghost predicate AllServing(d: Dirs, v: View, clean: bool) {
    forall n | n in v.procs :: v.procs[n].pid < v.nextPid && (v.procs[n].alive ==> Serving(d, v, n, clean))
  }

  ghost predicate CleanStore(d: Dirs, instances: map<string, Instance>) {
    forall n | n in instances :: Clean(d, instances[n])
  }

  /** While no stored record hides a listener, every process has bound exactly what its config file says. */
  lemma ListenersExact(d: Dirs, v: View, n: string)
    requires AllServing(d, v, true) && CleanStore(d, v.instances) && Up(v, n)
    ensures n in v.conf && v.procs[n].bound == Bound(v.conf[n])
  {
    hide Bound, Clean, ListenersDiffer;
    assert Serving(d, v, n, true);
    var r: Instance :| StartedFrom(d, r, v.instances[n], v.procs[n].bound, true);
    SameListenersSameLines(d, r, v.instances[n]);
  }

  // ------------------------------------------------ one instance at a time

  // Nothing about any other process has changed.
  ghost predicate OthersSame(a: View, b: View, name: string) {
    && a.nextPid <= b.nextPid
    && (forall m | m != name :: m in b.procs <==> m in a.procs)
    && (forall m | m != name && m in a.procs :: b.procs[m] == a.procs[m])
    && (forall m | m != name && m in a.instances :: m in b.instances && b.instances[m] == a.instances[m])
    && (forall m | m != name && m in a.conf :: m in b.conf && b.conf[m] == a.conf[m])
    && (forall m | m != name :: CrlAt(b, m) == CrlAt(a, m))
  }

  lemma OneChanged(d: Dirs, a: View, b: View, name: string, clean: bool)
    requires AllServing(d, a, clean) && OthersSame(a, b, name)
    requires name in b.procs ==> b.procs[name].pid < b.nextPid
    requires Up(b, name) ==> Serving(d, b, name, clean)
    ensures AllServing(d, b, clean)
  {
    hide Rendered, StartedFrom, CrlAt;
    forall m | m in b.procs ensures b.procs[m].pid < b.nextPid && (b.procs[m].alive ==> Serving(d, b, m, clean)) {
      if m != name {
        assert m in a.procs && (a.procs[m].alive ==> Serving(d, a, m, clean));
      }
    }
  }

  lemma OthersInTurn(a: View, b: View, c: View, name: string)
    requires OthersSame(a, b, name) && OthersSame(b, c, name)
    ensures OthersSame(a, c, name)
  {
    hide CrlAt;
  }

  // Only the entry of one process has changed.
  predicate OneEntry(a: View, b: View, n: string) {
    && b == a.(procs := b.procs, nextPid := b.nextPid) && a.nextPid <= b.nextPid
    && b.procs - {n} == a.procs - {n}
  }

  lemma OneEntryAlone(a: View, b: View, n: string)
    requires OneEntry(a, b, n)
    ensures OthersSame(a, b, n)
  {
    hide CrlAt;
    forall m | m != n
      ensures m in b.procs <==> m in a.procs
      ensures m in a.procs ==> b.procs[m] == a.procs[m]
    {
      assert m in b.procs - {n} <==> m in a.procs - {n};
      assert m in a.procs ==> (b.procs - {n})[m] == (a.procs - {n})[m];
    }
    CrlSameAt(a, b);
  }

  lemma CrlSameAt(a: View, b: View)
    requires a.crl == b.crl
    ensures forall m :: CrlAt(b, m) == CrlAt(a, m)
  {
  }

  lemma StartEntry(v: View, n: string, starts: bool)
    ensures OneEntry(v, Start(v, n, starts), n)
  {
    hide Bound, ConfAt, CrlAt;
  }

  lemma ReloadEntry(v: View, n: string)
    ensures OneEntry(v, Reload(v, n), n)
  {
    hide ConfAt, CrlAt;
  }

  lemma StopEntry(v: View, n: string)
    ensures OneEntry(v, Stop(v, n), n)
  {
  }

  lemma ProcessAlone(v: View, n: string, starts: bool)
    ensures OthersSame(v, Start(v, n, starts), n) && OthersSame(v, Reload(v, n), n) && OthersSame(v, Stop(v, n), n)
  {
    hide *;
    StartEntry(v, n, starts);
    ReloadEntry(v, n);
    StopEntry(v, n);
    OneEntryAlone(v, Start(v, n, starts), n);
    OneEntryAlone(v, Reload(v, n), n);
    OneEntryAlone(v, Stop(v, n), n);
  }

  lemma RecordAlone(v: View, n: string, rec: Instance, text: string)
    ensures OthersSame(v, Configured(v, n, text), n)
    ensures OthersSame(v, v.(conf := v.conf[n := text], instances := v.instances[n := rec]), n)
  {
  }

  // A view in which the record of an instance and its config file agree.
  ghost predicate Agrees(d: Dirs, v: View, n: string) {
    n in v.instances && n in v.conf && Some(v.conf[n]) == Rendered(d, v.instances[n])
  }

  // A process started on agreeing files serves its instance.
  lemma StartServes(d: Dirs, v: View, n: string, starts: bool, clean: bool)
    requires Agrees(d, v, n) && v.instances[n].enabled && !Up(v, n)
    requires clean ==> Clean(d, v.instances[n])
    requires n in v.procs ==> v.procs[n].pid < v.nextPid
    ensures var u := Start(v, n, starts);
            && (n in u.procs ==> u.procs[n].pid < u.nextPid)
            && (Up(u, n) <==> starts)
            && (Up(u, n) ==> Serving(d, u, n, clean))
  {
    hide Rendered, Bound, Clean;
    if starts {
      var u := Start(v, n, starts);
      assert StartedFrom(d, v.instances[n], v.instances[n], u.procs[n].bound, clean);
    }
  }

  // A process that keeps its sockets across a change of other settings.
  lemma ReloadServes(d: Dirs, a: View, b: View, n: string, clean: bool)
    requires Up(a, n) && Serving(d, a, n, clean) && Agrees(d, b, n) && b.instances[n].enabled
    requires b.procs == a.procs && !ListenersDiffer(a.instances[n], b.instances[n])
    ensures var u := Reload(b, n);
            Up(u, n) && Serving(d, u, n, clean) && u.procs[n].pid == a.procs[n].pid
                && u.procs[n].bound == a.procs[n].bound
  {
    hide Rendered, Bound, Clean;
    var r: Instance :| StartedFrom(d, r, a.instances[n], a.procs[n].bound, clean);
    assert StartedFrom(d, r, b.instances[n], a.procs[n].bound, clean);
  }

  // ------------------------------------------------ PatchInstance

  // The view after a patch whose new record renders to the given text.
  function AfterPatch(v: View, name: string, body: Body, text: string, starts: bool): View
    requires name in v.instances
  {
    var before := v.instances[name];
    var rec := Patched(before, body);
    var stored := v.(conf := v.conf[name := text], instances := v.instances[name := rec]);
    if !rec.enabled then Stop(stored, name)
    else if ListenersDiffer(before, rec) then Start(Stop(stored, name), name, starts)
    else Reload(Start(stored, name, starts), name)
  }

  lemma PatchKeepsName(rec: Instance, body: Body)
    ensures Patched(rec, body).name == rec.name && Patched(rec, body).authMode == rec.authMode
  {
  }

  lemma ConfiguredTwice(v: View, n: string, text: string)
    requires n in v.conf && v.conf[n] == text
    ensures Configured(v, n, text) == v
  {
    assert v.conf[n := text] == v.conf;
  }

  // The order of a patch whose record renders: config, store, process.
  lemma PatchPlanParts(d: Dirs, w: State, name: string, body: Body, o: Outside) returns (process: seq<Step>)
    requires name in w.mem.instances && Rendered(d, Patched(w.mem.instances[name], body)).Some?
    requires w.mem.instances[name].name == name
    ensures var before := w.mem.instances[name];
            var rec := Patched(before, body);
            var after := PutInstance(w.mem, rec);
            var c := PatchInstancePlan(d, w, name, body, o);
            var again := StartInstance(d, after, rec, o.secondOrder, o.starts, false);
            var start := StartInstance(d, after, rec, o.secondOrder, o.starts, Alive(w, name));
            && c.steps == WriteConfig(d, w.mem, rec, o.firstOrder).steps + (Flush(after) + process)
            && (!rec.enabled ==> process == [StopProcess(name)] && c.error.None?)
            && (rec.enabled && ListenersDiffer(before, rec) ==>
                  process == [StopProcess(name)] + again.steps && c.error == again.error)
            && (rec.enabled && !ListenersDiffer(before, rec) ==>
                  process == start.steps + (if start.error.None? then [Hangup(name)] else []) && c.error.None?)
  {
    hide Rendered, Patched, ListenersDiffer, WriteConfig, StartInstance, Flush, PutInstance;
    var before := w.mem.instances[name];
    var rec := Patched(before, body);
    var after := PutInstance(w.mem, rec);
    RenderedConfig(d, w.mem, rec, o.firstOrder);
    PatchKeepsName(before, body);
    assert !Alive(Stopped(w, name), name);
    if !rec.enabled {
      process := [StopProcess(name)];
    } else if ListenersDiffer(before, rec) {
      process := [StopProcess(name)] + StartInstance(d, after, rec, o.secondOrder, o.starts, false).steps;
    } else {
      var start := StartInstance(d, after, rec, o.secondOrder, o.starts, Alive(w, name));
      process := start.steps + (if start.error.None? then [Hangup(name)] else []);
    }
  }

  lemma SeeStop(w: State, rest: seq<Step>, n: string)
    ensures Exec(w, [StopProcess(n)] + rest) == Exec(Apply(w, StopProcess(n)), rest)
    ensures See(Apply(w, StopProcess(n))) == Stop(See(w), n)
    ensures Exec(w, [StopProcess(n)]) == Apply(w, StopProcess(n))
  {
    hide Exec, Apply, See;
    ExecAppend(w, [StopProcess(n)], rest);
    ExecOne(w, StopProcess(n));
    SeeStart(w, n, false);
  }

  lemma SeeHangup(w: State, steps: seq<Step>, n: string)
    ensures See(Exec(w, steps + [Hangup(n)])) == Reload(See(Exec(w, steps)), n)
  {
    hide Exec, Apply, See;
    ExecAppend(w, steps, [Hangup(n)]);
    ExecOne(Exec(w, steps), Hangup(n));
    SeeStart(Exec(w, steps), n, false);
  }

  // The process part of a patch, seen from the stored record on.
  lemma SeePatchProcess(d: Dirs, u: State, mem: StoreData, rec: Instance, o: Outside, differ: bool, process: seq<Step>)
    requires Rendered(d, rec).Some? && Agrees(d, See(u), rec.name) && See(u).instances[rec.name] == rec
    requires var again := StartInstance(d, mem, rec, o.secondOrder, o.starts, false);
             var start := StartInstance(d, mem, rec, o.secondOrder, o.starts, Alive(u, rec.name));
             && (!rec.enabled ==> process == [StopProcess(rec.name)])
             && (rec.enabled && differ ==> process == [StopProcess(rec.name)] + again.steps)
             && (rec.enabled && !differ ==>
                   process == start.steps + (if start.error.None? then [Hangup(rec.name)] else []))
    ensures See(Exec(u, process)) ==
              if !rec.enabled then Stop(See(u), rec.name)
              else if differ then Start(Stop(See(u), rec.name), rec.name, o.starts)
              else Reload(Start(See(u), rec.name, o.starts), rec.name)
  {
    hide Rendered, Exec, StartInstance, Apply, Start, Reload, Stop, Alive;
    var n, text := rec.name, Rendered(d, rec).value;
    if !rec.enabled {
      SeeStop(u, [], n);
    } else if differ {
      var again := StartInstance(d, mem, rec, o.secondOrder, o.starts, false);
      SeeStop(u, again.steps, n);
      var s := Apply(u, StopProcess(n));
      SeeStartInstance(d, s, mem, rec, o.secondOrder, o.starts, false);
      StopKeepsConf(See(u), n);
      ConfiguredTwice(See(s), n, text);
    } else {
      var start := StartInstance(d, mem, rec, o.secondOrder, o.starts, Alive(u, n));
      SeeStartInstance(d, u, mem, rec, o.secondOrder, o.starts, Alive(u, n));
      ConfiguredTwice(See(u), n, text);
      if start.error.None? {
        SeeHangup(u, start.steps, n);
      } else {
        assert process == start.steps;
        FailedStart(u, n, o.starts);
      }
    }
  }

  lemma StopKeepsConf(v: View, n: string)
    ensures Stop(v, n).conf == v.conf
  {
  }

  lemma FailedStart(u: State, n: string, starts: bool)
    requires !Alive(u, n) && !starts
    ensures Reload(Start(See(u), n, starts), n) == Start(See(u), n, starts)
  {
  }

  lemma SeePatch(d: Dirs, w: State, name: string, body: Body, o: Outside)
    requires name in w.mem.instances && w.mem.instances[name].name == name
    requires Rendered(d, Patched(w.mem.instances[name], body)).Some?
    ensures var text := Rendered(d, Patched(w.mem.instances[name], body)).value;
            See(Exec(w, PatchInstancePlan(d, w, name, body, o).steps)) == AfterPatch(See(w), name, body, text, o.starts)
  {
    hide Rendered, Exec, PatchInstancePlan, WriteConfig, StartInstance, Flush, Patched, ListenersDiffer, Start,
         Reload, Stop, PutInstance;
    var before := w.mem.instances[name];
    var rec := Patched(before, body);
    var text := Rendered(d, rec).value;
    var after := PutInstance(w.mem, rec);
    var conf := WriteConfig(d, w.mem, rec, o.firstOrder);
    var process := PatchPlanParts(d, w, name, body, o);
    PatchKeepsName(before, body);
    var u1 := Exec(w, conf.steps);
    SeeConfig(d, w, w.mem, rec, o.firstOrder);
    var u2 := Exec(u1, Flush(after));
    SeeFlush(u1, after);
    PutRecord(w.mem, rec);
    ExecAppend(w, conf.steps, Flush(after) + process);
    ExecAppend(u1, Flush(after), process);
    assert See(u2) == See(w).(conf := w.disk.conf[name := text], instances := w.mem.instances[name := rec]);
    SeePatchProcess(d, u2, after, rec, o, ListenersDiffer(before, rec), process);
  }

  lemma PutRecord(data: StoreData, rec: Instance)
    ensures PutInstance(data, rec).instances == data.instances[rec.name := rec]
  {
  }

  lemma StoredAlone(v: View, name: string, rec: Instance, text: string, starts: bool)
    ensures var stored := v.(conf := v.conf[name := text], instances := v.instances[name := rec]);
            && OthersSame(v, Stop(stored, name), name)
            && OthersSame(v, Start(Stop(stored, name), name, starts), name)
            && OthersSame(v, Reload(Start(stored, name, starts), name), name)
            && OthersSame(v, Start(stored, name, starts), name)
  {
    hide OthersSame, Start, Stop, Reload;
    var stored := v.(conf := v.conf[name := text], instances := v.instances[name := rec]);
    RecordAlone(v, name, rec, text);
    ProcessAlone(stored, name, starts);
    ProcessAlone(Stop(stored, name), name, starts);
    ProcessAlone(Start(stored, name, starts), name, starts);
    OthersInTurn(v, stored, Stop(stored, name), name);
    OthersInTurn(v, Stop(stored, name), Start(Stop(stored, name), name, starts), name);
    OthersInTurn(v, stored, Start(stored, name, starts), name);
    OthersInTurn(v, Start(stored, name, starts), Reload(Start(stored, name, starts), name), name);
  }

  lemma StoppedDown(v: View, n: string)
    ensures !Up(Stop(v, n), n) && n !in Stop(v, n).procs
  {
  }

  /** After a patch, with any outcome of the start, no live process serves an outdated config or CRL. */
  lemma PatchServing(d: Dirs, v: View, name: string, body: Body, text: string, starts: bool, clean: bool)
    requires AllServing(d, v, clean) && name in v.instances
    requires Rendered(d, Patched(v.instances[name], body)) == Some(text)
    requires clean ==> Clean(d, Patched(v.instances[name], body))
    ensures AllServing(d, AfterPatch(v, name, body, text, starts), clean)
  {
    hide Rendered, Patched, ListenersDiffer, OthersSame, Start, Stop, Reload, Serving, Clean;
    var rec := Patched(v.instances[name], body);
    var stored := v.(conf := v.conf[name := text], instances := v.instances[name := rec]);
    var u := AfterPatch(v, name, body, text, starts);
    StoredAlone(v, name, rec, text, starts);
    StoppedDown(stored, name);
    if rec.enabled {
      if ListenersDiffer(v.instances[name], rec) {
        StopKeeps(stored, name);
        StartServes(d, Stop(stored, name), name, starts, clean);
      } else if Up(v, name) {
        UpNoStart(stored, name, starts);
        ReloadServes(d, v, stored, name, clean);
        ReloadKeepsPid(stored, name);
      } else {
        StartServes(d, stored, name, starts, clean);
        FreshReload(d, Start(stored, name, starts), name, clean);
      }
    }
    OneChanged(d, v, u, name, clean);
  }

  lemma StopKeeps(v: View, n: string)
    ensures Stop(v, n).instances == v.instances && Stop(v, n).conf == v.conf
  {
  }

  lemma UpNoStart(v: View, n: string, starts: bool)
    requires Up(v, n)
    ensures Start(v, n, starts) == v
  {
  }

  lemma ReloadKeepsPid(v: View, n: string)
    ensures Reload(v, n).nextPid == v.nextPid && (n in v.procs <==> n in Reload(v, n).procs)
    ensures n in v.procs ==> Reload(v, n).procs[n].pid == v.procs[n].pid
  {
  }

  // Reloading a process that already serves changes nothing.
  lemma FreshReload(d: Dirs, v: View, n: string, clean: bool)
    requires Up(v, n) ==> Serving(d, v, n, clean)
    ensures Reload(v, n) == v
  {
    hide Rendered, StartedFrom;
    if Up(v, n) {
      assert v.procs[n].(conf := ConfAt(v, n), crl := CrlAt(v, n)) == v.procs[n];
      assert v.procs[n := v.procs[n]] == v.procs;
    }
  }

  // ------------------------------------------------ CreateInstance

  // What creating an instance means for processes: perhaps a CRL, then the record, its config and a process.
  function AfterCreate(v: View, rec: Instance, crl: map<string, set<int>>, text: string, starts: bool): View {
    var stored := v.(crl := crl, conf := v.conf[rec.name := text], instances := v.instances[rec.name := rec]);
    if rec.enabled then Start(stored, rec.name, starts) else stored
  }

  // The CRL files after EnsureCA.
  function SeededCrl(disk: Disk, name: string): map<string, set<int>> {
    if CaLoads(disk, name) then disk.crl else disk.crl[name := {}]
  }

  lemma SeeEnsureCa(w: State, name: string, o: Outside)
    ensures See(Exec(w, EnsureCa(w.disk, name, o))) == See(w).(crl := SeededCrl(w.disk, name))
  {
    hide Exec, Apply;
    if CaLoads(w.disk, name) {
      ExecNone(w);
    } else {
      var a, b := WriteCaCert(name, o.caCert), WriteCaKey(name, o.caKey);
      ExecThree(w, a, b, WriteCrl(name, {}));
      UnseenStep(w, a);
      UnseenStep(Apply(w, a), b);
      SeeCrl(Apply(Apply(w, a), b), name, {});
    }
  }

  lemma ServerCertUnseen(disk: Disk, rec: Instance, o: Outside)
    ensures AllUnseen(EnsureServerCert(disk, rec, o).steps)
  {
    hide HostOnly, Ascii;
  }

  lemma SeePrepare(d: Dirs, w: State, u: State, rec: Instance, o: Outside)
    ensures var c := Prepare(d, w, rec, o);
            && (c.error.None? ==> Rendered(d, rec).Some?)
            && See(Exec(u, c.steps)) == if c.error.None? then Configured(See(u), rec.name, Rendered(d, rec).value)
                else See(u)
  {
    hide Rendered, Exec, WriteConfig, EnsureServerCert, See, Configured;
    var server, conf := EnsureServerCert(w.disk, rec, o), WriteConfig(d, w.mem, rec, o.firstOrder);
    ServerCertUnseen(w.disk, rec, o);
    UnseenSteps(u, server.steps);
    RenderedConfig(d, w.mem, rec, o.firstOrder);
    if server.error.None? {
      ExecAppend(u, server.steps, conf.steps);
      if conf.error.None? {
        SeeConfig(d, Exec(u, server.steps), w.mem, rec, o.firstOrder);
      } else {
        assert server.steps + [] == server.steps;
      }
    }
  }

  lemma SeeCreate(d: Dirs, w: State, req: InstanceRequest, o: Outside)
    requires var rec := NewInstance(req); rec.name != "" && rec.name !in w.mem.instances && rec.poolCidr != ""
    ensures var rec := NewInstance(req);
            var wanted := UsesCert(rec.authMode) || req.createCaIfEmpty;
            var crl := if wanted then SeededCrl(w.disk, rec.name) else w.disk.crl;
            var c := CreateInstancePlan(d, w, req, o);
            && (c.error.None? ==> Rendered(d, rec).Some?)
            && See(Exec(w, c.steps)) ==
                 if c.error.None? then AfterCreate(See(w), rec, crl, Rendered(d, rec).value, o.starts)
                 else See(w).(crl := crl)
  {
    hide Rendered, Exec, Prepare, StartInstance, Flush, EnsureCa, NewInstance, PutInstance, Start, SeededCrl, UsesCert;
    var rec := NewInstance(req);
    var wanted := UsesCert(rec.authMode) || req.createCaIfEmpty;
    var ca := if wanted then EnsureCa(w.disk, rec.name, o) else [];
    var after := PutInstance(w.mem, rec);
    var start := if rec.enabled then
                   StartInstance(d, after, rec, o.secondOrder, o.starts, Alive(w, rec.name)).steps
                 else [];
    var prepare := Prepare(d, w, rec, o);
    var u := Exec(w, ca);
    SeeEnsureCa(w, rec.name, o);
    ExecNone(w);
    SeePrepare(d, w, u, rec, o);
    ExecAppend(w, ca, prepare.steps);
    if prepare.error.None? {
      var u1 := Exec(u, prepare.steps);
      var u2 := Exec(u1, Flush(after));
      SeeFlush(u1, after);
      PutRecord(w.mem, rec);
      ExecAppend(w, ca + prepare.steps, Flush(after) + start);
      ExecAppend(u1, Flush(after), start);
      if rec.enabled {
        SeeStartInstance(d, u2, after, rec, o.secondOrder, o.starts, Alive(w, rec.name));
        ConfiguredTwice(See(u2), rec.name, Rendered(d, rec).value);
      } else {
        ExecNone(u2);
      }
    }
  }

  lemma UnknownDown(d: Dirs, v: View, n: string, clean: bool)
    requires AllServing(d, v, clean) && n !in v.instances
    ensures !Up(v, n) && (n in v.procs ==> v.procs[n].pid < v.nextPid)
  {
    hide Rendered, StartedFrom;
  }

  lemma SeededAlone(v: View, n: string, crl: map<string, set<int>>)
    requires crl == v.crl || crl == v.crl[n := {}]
    ensures OthersSame(v, v.(crl := crl), n)
  {
  }

  /** Creating an instance, failed or not, disturbs no other process; its own starts on its own config. */
  lemma CreateServing(d: Dirs, v: View, rec: Instance, crl: map<string, set<int>>, text: string, starts: bool,
      clean: bool)
    requires AllServing(d, v, clean) && rec.name !in v.instances
    requires crl == v.crl || crl == v.crl[rec.name := {}]
    requires Rendered(d, rec) == Some(text) && (clean ==> Clean(d, rec))
    ensures AllServing(d, AfterCreate(v, rec, crl, text, starts), clean)
    ensures AllServing(d, v.(crl := crl), clean)
  {
    hide Rendered, OthersSame, Start, Serving, Clean;
    var seeded := v.(crl := crl);
    var stored := seeded.(conf := v.conf[rec.name := text], instances := v.instances[rec.name := rec]);
    UnknownDown(d, v, rec.name, clean);
    SeededAlone(v, rec.name, crl);
    OneChanged(d, v, seeded, rec.name, clean);
    RecordAlone(seeded, rec.name, rec, text);
    ProcessAlone(stored, rec.name, starts);
    OthersInTurn(seeded, stored, Start(stored, rec.name, starts), rec.name);
    if rec.enabled {
      StartServes(d, stored, rec.name, starts, clean);
    }
    OneChanged(d, seeded, AfterCreate(v, rec, crl, text, starts), rec.name, clean);
  }

  lemma SeededServing(d: Dirs, v: View, n: string, crl: map<string, set<int>>, clean: bool)
    requires AllServing(d, v, clean) && n !in v.instances
    requires crl == v.crl || crl == v.crl[n := {}]
    ensures AllServing(d, v.(crl := crl), clean)
  {
    hide OthersSame, Serving;
    UnknownDown(d, v, n, clean);
    SeededAlone(v, n, crl);
    OneChanged(d, v, v.(crl := crl), n, clean);
  }

  // ------------------------------------------------ DeleteInstance

  function AfterDelete(v: View, name: string): View {
    Stop(v, name).(conf := v.conf - {name}, instances := v.instances - {name})
  }

  lemma SeeDelete(w: State, name: string)
    requires name in w.mem.instances
    ensures See(Exec(w, DeleteInstancePlan(w, name).steps)) == AfterDelete(See(w), name)
  {
    hide Exec, Apply, Flush;
    var after := DropInstance(w.mem, name);
    var a, b := StopProcess(name), RemoveConf(name);
    ExecAppend(w, [a, b], Flush(after));
    ExecTwo(w, a, b);
    SeeStart(w, name, false);
    SeeWriteConf(Apply(w, a), name, "");
    SeeFlush(Apply(Apply(w, a), b), after);
  }

  lemma DeleteServing(d: Dirs, v: View, name: string, clean: bool)
    requires AllServing(d, v, clean)
    ensures AllServing(d, AfterDelete(v, name), clean)
  {
    hide Rendered, Serving;
    OneChanged(d, v, AfterDelete(v, name), name, clean) by {
      assert OthersSame(v, AfterDelete(v, name), name);
    }
  }

  // ------------------------------------------------ calls on clients

  // Reloading after the CRL of one instance has changed.
  function AfterCrl(v: View, name: string, crl: map<string, set<int>>): View {
    Reload(v.(crl := crl), name)
  }

  lemma CrlServing(d: Dirs, v: View, name: string, crl: map<string, set<int>>, clean: bool)
    requires AllServing(d, v, clean)
    requires forall m | m != name :: (m in crl <==> m in v.crl) && (m in crl ==> crl[m] == v.crl[m])
    ensures AllServing(d, AfterCrl(v, name, crl), clean)
  {
    hide Rendered, StartedFrom;
    var u := AfterCrl(v, name, crl);
    if Up(v, name) {
      assert Serving(d, v, name, clean);
      assert Serving(d, u, name, clean);
    }
    assert OthersSame(v, u, name);
    hide Serving;
    OneChanged(d, v, u, name, clean);
  }

  lemma SeeRevoke(w: State, name: string, serial: string)
    ensures var c := Revoke(w.disk, name, serial);
            var v := See(Exec(w, c.steps));
            && v == See(w).(crl := v.crl)
            && (c.error.Some? ==> v == See(w))
            && forall m | m != name :: (m in v.crl <==> m in w.disk.crl) && (m in v.crl ==> v.crl[m] == w.disk.crl[m])
  {
    hide Exec, Apply, Numbers;
    var grown := RevokedOf(w.disk, name) + {serial};
    var a := WriteRevoked(name, grown);
    UnseenStep(w, a);
    if serial in RevokedOf(w.disk, name) {
      ExecNone(w);
    } else if CaLoads(w.disk, name) {
      ExecTwo(w, a, WriteCrl(name, Numbers(grown)));
      SeeCrl(Apply(w, a), name, Numbers(grown));
    } else {
      ExecOne(w, a);
    }
  }

  lemma PinUnseen(name: string, cn: string, ip: string)
    ensures AllUnseen(PinCall(name, cn, ip).steps)
  {
    hide GoodName, PinFor, Unpinned;
  }

  lemma PasswordUnseen(mode: AuthMode, name: string, req: ClientRequest, o: Outside)
    ensures AllUnseen(PasswordPart(mode, name, req, o).steps) && AllUnseen(SetPassword(name, o).steps)
  {
  }

  lemma IssueUnseen(disk: Disk, name: string, o: Outside)
    ensures AllUnseen(Issue(disk, name, o).steps)
  {
  }

  lemma DeletePasswordUnseen(disk: Disk, name: string, cn: string)
    ensures AllUnseen(DeletePassword(disk, name, cn))
  {
  }

  // Steps no process notices, and perhaps a flush of the same instances.
  lemma SeeThenFlush(w: State, front: seq<Step>, steps: seq<Step>, data: StoreData)
    requires AllUnseen(front) && data.instances == w.mem.instances
    requires steps == front || steps == front + Flush(data)
    ensures See(Exec(w, steps)) == See(w)
  {
    hide Exec, Flush, AllUnseen;
    UnseenSteps(w, front);
    if steps == front + Flush(data) {
      ExecAppend(w, front, Flush(data));
      SeeFlush(Exec(w, front), data);
    }
  }

  lemma SeeCreateClient(w: State, name: string, req: ClientRequest, o: Outside)
    ensures See(Exec(w, CreateClientPlan(w, name, req, o).steps)) == See(w)
  {
    hide Exec, Issue, PasswordPart, PinCall, Flush, See, Unseen, OrAuth, UsesCert;
    var cn := UnseenFront(w, name, req, o);
    ExecNone(w);
    if cn.Some? {
      SeeThenFlush(w, cn.value.0, CreateClientPlan(w, name, req, o).steps, cn.value.1);
    }
  }

  // The plan of CreateClient, cut before its flush.
  lemma UnseenFront(w: State, name: string, req: ClientRequest, o: Outside) returns (r: Option<(seq<Step>, StoreData)>)
    ensures var steps := CreateClientPlan(w, name, req, o).steps;
            && (r.None? ==> steps == [])
            && (r.Some? ==> AllUnseen(r.value.0) && r.value.1.instances == w.mem.instances
                            && (steps == r.value.0 || steps == r.value.0 + Flush(r.value.1)))
  {
    hide Issue, PasswordPart, PinCall, Flush, Unseen, OrAuth, UsesCert;
    var cn := Text.Trim(req.commonName);
    r := None;
    if name in w.mem.instances && cn != "" && cn !in ClientsOf(w.mem, name) {
      var mode := OrAuth(req.authMode, w.mem.instances[name].authMode);
      var issue := if UsesCert(mode) then Issue(w.disk, name, o) else Nothing;
      var password := PasswordPart(mode, name, req, o);
      var pin := PinCall(name, cn, req.staticIp);
      var after := PutClient(w.mem, name, NewClient(name, cn, mode, req, o));
      IssueUnseen(w.disk, name, o);
      PasswordUnseen(mode, name, req, o);
      PinUnseen(name, cn, req.staticIp);
      UnseenAppend(issue.steps, password.steps);
      UnseenAppend(issue.steps + password.steps, pin.steps);
      var front := Then(Then(issue, password), pin).steps;
      r := Some((front, after));
    }
  }

  lemma SeePatchClient(w: State, name: string, cn: string, body: Body, o: Outside)
    ensures See(Exec(w, PatchClientPlan(w, name, cn, body, o).steps)) == See(w)
  {
    hide Exec, SetPassword, PinCall, Flush, See, Unseen, PatchedClient, NewPassword, UsesPassword;
    var steps := PatchClientPlan(w, name, cn, body, o).steps;
    ExecNone(w);
    if cn in ClientsOf(w.mem, name) {
      var c := PatchedClient(ClientsOf(w.mem, name)[cn], body);
      var password := if NewPassword(body) != "" && UsesPassword(c.authMode) then SetPassword(name, o) else Nothing;
      var pin := PinCall(name, cn, c.staticIp);
      PasswordUnseen(Cert, name, ClientRequest("", "", Cert, "", ""), o);
      PinUnseen(name, cn, c.staticIp);
      UnseenAppend(password.steps, pin.steps);
      var front := Then(password, pin).steps;
      var after := PutClient(w.mem, name, c);
      assert steps == front || steps == front + Flush(after);
      SeeThenFlush(w, front, steps, after);
    }
  }

  lemma SeeDeleteClient(w: State, name: string, cn: string)
    requires cn in ClientsOf(w.mem, name)
    ensures var v := See(Exec(w, DeleteClientPlan(w, name, cn).steps));
            || v == See(w)
            || exists crl ::
                 && v == AfterCrl(See(w), name, crl)
                 && forall m | m != name :: (m in crl <==> m in w.disk.crl) && (m in crl ==> crl[m] == w.disk.crl[m])
  {
    hide Exec, Revoke, DeletePassword, Flush, See, Unseen, GoodName, UsesPassword, DropClient, Reload;
    var c := ClientsOf(w.mem, name)[cn];
    var revoke := Revoke(w.disk, name, c.certSerial);
    var forget := (if UsesPassword(c.authMode) then DeletePassword(w.disk, name, cn) else [])
                  + (if GoodName(cn) then [RemovePin(Slot(name, cn))] else []);
    var after := DropClient(w.mem, name, cn);
    var steps := DeleteClientPlan(w, name, cn).steps;
    ForgetUnseen(w, name, cn, c);
    DropKeepsInstances(w.mem, name, cn);
    if c.certSerial == "" {
      assert steps == forget + Flush(after);
      SeeThenFlush(w, forget, steps, after);
    } else {
      var u := Exec(w, revoke.steps);
      SeeRevoke(w, name, c.certSerial);
      if revoke.error.Some? {
        assert steps == revoke.steps;
      } else {
        assert steps == revoke.steps + [Hangup(name)] + (forget + Flush(after));
        var h := Exec(w, revoke.steps + [Hangup(name)]);
        ExecAppend(w, revoke.steps + [Hangup(name)], forget + Flush(after));
        SeeHangup(w, revoke.steps, name);
        HangupKeepsMem(w, revoke.steps, name);
        SeeThenFlush(h, forget, forget + Flush(after), after) by {
          RevokeKeepsMem(w, name, c.certSerial);
        }
        assert See(h) == AfterCrl(See(w), name, See(u).crl);
      }
    }
  }

  lemma ForgetUnseen(w: State, name: string, cn: string, c: Client)
    ensures AllUnseen((if UsesPassword(c.authMode) then DeletePassword(w.disk, name, cn) else [])
                      + (if GoodName(cn) then [RemovePin(Slot(name, cn))] else []))
  {
    hide GoodName, UsesPassword, DeletePassword;
    DeletePasswordUnseen(w.disk, name, cn);
  }

  lemma DropKeepsInstances(data: StoreData, name: string, cn: string)
    ensures DropClient(data, name, cn).instances == data.instances
  {
  }

  lemma HangupKeepsMem(w: State, steps: seq<Step>, name: string)
    ensures Exec(w, steps + [Hangup(name)]).mem == Exec(w, steps).mem
  {
    hide Exec;
    ExecAppend(w, steps, [Hangup(name)]);
    ExecOne(Exec(w, steps), Hangup(name));
  }

  lemma RevokeKeepsMem(w: State, name: string, serial: string)
    ensures Exec(w, Revoke(w.disk, name, serial).steps).mem == w.mem
  {
    SeeRevokeMem(w, Revoke(w.disk, name, serial).steps);
  }

  lemma {:induction false} SeeRevokeMem(w: State, steps: seq<Step>)
    requires forall i | 0 <= i < |steps| :: steps[i].WriteRevoked? || steps[i].WriteCrl?
    ensures Exec(w, steps).mem == w.mem
    decreases |steps|
  {
    hide Started, Stopped, Reloaded;
    if steps != [] {
      SeeRevokeMem(Apply(w, steps[0]), steps[1..]);
    }
  }

  // ------------------------------------------------ Reconcile

  lemma SeeReconcileOne(d: Dirs, w: State, b: Boot, n: string)
    requires n in w.mem.instances && w.mem.instances[n].name == n && Rendered(d, w.mem.instances[n]).Some?
    ensures var rec := w.mem.instances[n];
            See(Exec(w, ReconcileOne(d, w.mem, b, n)))
            == if rec.enabled then Start(Configured(See(w), n, Rendered(d, rec).value), n, n in b.starts) else See(w)
  {
    hide Exec, StartInstance, Rendered, See, Configured, Start;
    if w.mem.instances[n].enabled {
      SeeStartInstance(d, w, w.mem, w.mem.instances[n], ClientOrder(b, n), n in b.starts, false);
    } else {
      ExecNone(w);
    }
  }

  /** Reconciling one instance leaves what serves alone, and whatever it starts serves. */
  lemma ReconcileOneServing(d: Dirs, v: View, n: string, starts: bool, clean: bool)
    requires AllServing(d, v, clean) && n in v.instances && v.instances[n].enabled
    requires Rendered(d, v.instances[n]).Some? && (clean ==> Clean(d, v.instances[n]))
    ensures AllServing(d, Start(Configured(v, n, Rendered(d, v.instances[n]).value), n, starts), clean)
  {
    hide Rendered, OthersSame, Start, Clean;
    var text := Rendered(d, v.instances[n]).value;
    if Up(v, n) {
      assert Serving(d, v, n, clean);
      ConfiguredTwice(v, n, text);
      UpNoStart(v, n, starts);
    } else {
      hide Serving;
      var u := Configured(v, n, text);
      RecordAlone(v, n, v.instances[n], text);
      ProcessAlone(u, n, starts);
      OthersInTurn(v, u, Start(u, n, starts), n);
      StartServes(d, u, n, starts, clean);
      OneChanged(d, v, Start(u, n, starts), n, clean);
    }
  }
}
