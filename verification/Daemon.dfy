/**
 * The daemon's objects with the fields they update in place. A ghost journal
 * records every step in the order it is taken; each call is proved to take
 * exactly the steps of its plan.
 */
module Daemon {
  import opened Wrappers
  import opened Records
  import opened Config
  import opened World
  import opened Plans
  import Numerals
  import Text

  // Steps that write or remove a file.
  predicate FileStep(s: Step) {
    !(s.SetMemory? || s.NoteIssued? || s.StartProcess? || s.StopProcess? || s.Hangup?)
  }

  predicate AllFile(steps: seq<Step>) {
    forall i | 0 <= i < |steps| :: FileStep(steps[i])
  }

  /** File steps change files only, whatever else the state holds. */
  lemma {:induction false} FileStepsOnly(w: State, steps: seq<Step>)
    requires AllFile(steps)
    ensures Exec(w, steps) == w.(disk := Exec(w, steps).disk)
    decreases |steps|
  {
    if steps != [] {
      FileStepsOnly(Apply(w, steps[0]), steps[1..]);
    }
  }

  /** The files of the host. `journal` is the history of the run so far, starting from `origin`. */
  class Files {
    var disk: Disk
    ghost const origin: State
    ghost var journal: seq<Step>

    ghost predicate Valid() reads this {
      disk == Exec(origin, journal).disk
    }

    constructor (disk: Disk, ghost origin: State)
      requires origin.disk == disk
      ensures Valid() && this.disk == disk && this.origin == origin && journal == []
    {
      this.disk := disk;
      this.origin := origin;
      this.journal := [];
    }

    // One os.WriteFile, os.Rename or os.Remove.
    method Do(s: Step)
      requires Valid() && FileStep(s)
      modifies this
      ensures Valid() && journal == old(journal) + [s]
      ensures disk == ApplyDisk(old(disk), s)
    {
      ExecAppend(origin, journal, [s]);
      ExecOne(Exec(origin, journal), s);
      disk := ApplyDisk(disk, s);
      journal := journal + [s];
    }

    // A step on memory, history or a process.
    ghost method Note(s: Step)
      requires Valid() && !FileStep(s)
      modifies this`journal
      ensures Valid() && journal == old(journal) + [s]
    {
      hide Started, Stopped, Reloaded;
      ExecAppend(origin, journal, [s]);
      ExecOne(Exec(origin, journal), s);
      ProcessDisk(Exec(origin, journal), s);
      journal := journal + [s];
    }
  }

  lemma ProcessDisk(w: State, s: Step)
    requires !FileStep(s)
    ensures Apply(w, s).disk == w.disk
  {
    hide Bound, ConfOnDisk, CrlOf;
  }

  /** state.Store: two nested maps, written out whole after every change. */
  class Store {
    const fs: Files
    var instances: map<string, Instance>
    var clients: map<string, map<string, Client>>

    ghost function Data(): StoreData reads this {
      StoreData(instances, clients)
    }

    constructor Open(fs: Files)
      ensures this.fs == fs && Data() == World.Open(fs.disk)
    {
      this.fs := fs;
      if fs.disk.state.Some? {
        instances, clients := fs.disk.state.value.instances, fs.disk.state.value.clients;
      } else {
        instances, clients := map[], map[];
      }
    }

    method FlushLocked()
      requires fs.Valid()
      modifies fs
      ensures fs.Valid() && fs.journal == old(fs.journal) + Flush(Data())
      ensures fs.disk == old(fs.disk).(state := Some(Data()), tmp := None)
    {
      var raw := StoreData(instances, clients);
      fs.Note(SetMemory(raw));
      fs.Do(WriteTmp(raw));
      fs.Do(RenameTmp);
    }

    method PutInstance(rec: Instance)
      requires fs.Valid()
      modifies this, fs
      ensures Data() == World.PutInstance(old(Data()), rec)
      ensures fs.Valid() && fs.journal == old(fs.journal) + Flush(Data())
      ensures fs.disk == old(fs.disk).(state := Some(Data()), tmp := None)
    {
      instances := instances[rec.name := rec];
      if rec.name !in clients {
        clients := clients[rec.name := map[]];
      }
      assert clients == old(clients)[rec.name := ClientsOf(old(Data()), rec.name)];
      FlushLocked();
    }

    method DeleteInstance(name: string)
      requires fs.Valid()
      modifies this, fs
      ensures Data() == DropInstance(old(Data()), name)
      ensures fs.Valid() && fs.journal == old(fs.journal) + Flush(Data())
      ensures fs.disk == old(fs.disk).(state := Some(Data()), tmp := None)
    {
      instances := instances - {name};
      clients := clients - {name};
      FlushLocked();
    }

    method PutClient(name: string, c: Client) returns (ok: bool)
      requires fs.Valid()
      modifies this, fs
      ensures ok == (name in old(instances))
      ensures fs.Valid()
      ensures Data() == if ok then World.PutClient(old(Data()), name, c) else old(Data())
      ensures fs.journal == if ok then old(fs.journal) + Flush(Data()) else old(fs.journal)
      ensures fs.disk == if ok then old(fs.disk).(state := Some(Data()), tmp := None) else old(fs.disk)
    {
      if name !in instances {
        return false;
      }
      if name !in clients {
        clients := clients[name := map[]];
      }
      clients := clients[name := clients[name][c.commonName := c]];
      assert clients == old(clients)[name := ClientsOf(old(Data()), name)[c.commonName := c]];
      FlushLocked();
      ok := true;
    }

    method DeleteClient(name: string, cn: string)
      requires fs.Valid()
      modifies this, fs
      ensures Data() == DropClient(old(Data()), name, cn)
      ensures fs.Valid() && fs.journal == old(fs.journal) + Flush(Data())
      ensures fs.disk == old(fs.disk).(state := Some(Data()), tmp := None)
    {
      if name in clients {
        clients := clients[name := clients[name] - {cn}];
      }
      FlushLocked();
    }
  }

  /** Supervisor: one process per instance. */
  class Supervisor {
    const fs: Files
    var procs: map<string, Process>
    var nextPid: nat

    constructor (fs: Files, nextPid: nat)
      ensures this.fs == fs && procs == map[] && this.nextPid == nextPid
    {
      this.fs := fs;
      procs := map[];
      this.nextPid := nextPid;
    }

    // The part of the state a supervisor sees.
    ghost function View(): State reads this, fs {
      State(EMPTY_STORE, fs.disk, procs, nextPid, map[])
    }

    predicate Running(name: string) reads this {
      name in procs && procs[name].alive
    }

    method Start(name: string, starts: bool) returns (ok: bool)
      requires fs.Valid()
      modifies this, fs`journal
      ensures fs.Valid() && fs.journal == old(fs.journal) + [StartProcess(name, starts)]
      ensures View() == Started(old(View()), name, starts)
      ensures ok == (old(Running(name)) || starts)
    {
      fs.Note(StartProcess(name, starts));
      if Running(name) {
        return true;
      }
      if !starts {
        return false;
      }
      var conf := ConfOnDisk(fs.disk, name);
      procs := procs[name := Process(nextPid, true, Bound(conf), conf, CrlOf(fs.disk, name))];
      nextPid := nextPid + 1;
      return true;
    }

    method Reload(name: string) returns (ok: bool)
      requires fs.Valid()
      modifies this, fs`journal
      ensures fs.Valid() && fs.journal == old(fs.journal) + [Hangup(name)]
      ensures View() == Reloaded(old(View()), name)
      ensures ok == old(Running(name))
    {
      fs.Note(Hangup(name));
      if !Running(name) {
        return false;
      }
      procs := procs[name := procs[name].(conf := ConfOnDisk(fs.disk, name), crl := CrlOf(fs.disk, name))];
      return true;
    }

    method Stop(name: string)
      requires fs.Valid()
      modifies this, fs`journal
      ensures fs.Valid() && fs.journal == old(fs.journal) + [StopProcess(name)]
      ensures View() == Stopped(old(View()), name)
    {
      fs.Note(StopProcess(name));
      procs := procs - {name};
    }
  }

  datatype Issued = Issued(serial: string, bundle: string)

  /** PKI: certificates, the revoked set and the CRL, all on disk. */
  class Pki {
    const fs: Files
    ghost var issued: map<Slot, string>

    constructor (fs: Files, ghost issued: map<Slot, string>)
      ensures this.fs == fs && this.issued == issued
    {
      this.fs := fs;
      this.issued := issued;
    }

    method EnsureCa(name: string, o: Outside)
      requires fs.Valid()
      modifies fs
      ensures fs.Valid() && fs.journal == old(fs.journal) + Plans.EnsureCa(old(fs.disk), name, o)
    {
      if CaLoads(fs.disk, name) {
        return;
      }
      fs.Do(WriteCaCert(name, o.caCert));
      fs.Do(WriteCaKey(name, o.caKey));
      NoNumbers();
      var _ := WriteCrlFor(name, {});
    }

    method EnsureServerCert(rec: Instance, o: Outside) returns (err: Option<Error>)
      requires fs.Valid()
      modifies fs
      ensures var c := Plans.EnsureServerCert(old(fs.disk), rec, o);
              fs.Valid() && err == c.error && fs.journal == old(fs.journal) + c.steps
    {
      if ServerCertThere(fs.disk, rec.name) {
        return None;
      }
      if !Ascii(HostOnly(rec.publicEndpoint)) {
        return Some(BadHost);
      }
      fs.Do(WriteServerCert(rec.name, o.serverCert));
      fs.Do(WriteServerKey(rec.name, o.serverKey));
      err := None;
    }

    method IssueClient(name: string, commonName: string, o: Outside) returns (r: Option<Issued>)
      requires fs.Valid()
      modifies this, fs
      ensures var c := if Text.Blank(commonName) then Call([], Some(CommonNameRequired))
          else Issue(old(fs.disk), name, o);
              && fs.Valid() && fs.journal == old(fs.journal) + c.steps
              && (r.Some? <==> c.error.None?)
              && (r.None? ==> c.steps == [] && issued == old(issued) && fs.disk == old(fs.disk))
              && (r.Some? ==>
                    && r.value == Issued(Numerals.Hex(o.serial), o.cert + o.key + old(fs.disk).caCert[name])
                    && issued == old(issued)[Slot(name, r.value.serial) := r.value.bundle])
    {
      if Text.Blank(commonName) || !CaLoads(fs.disk, name) {
        return None;
      }
      var ca := fs.disk.caCert[name];
      var slot := Slot(name, Numerals.Hex(o.serial));
      fs.Do(WriteCert(slot, o.cert));
      fs.Do(WriteKey(slot, o.key));
      var bundle := o.cert + o.key + ca;
      fs.Note(NoteIssued(slot, bundle));
      issued := issued[slot := bundle];
      r := Some(Issued(slot.key, bundle));
    }

    method RevokeClient(name: string, serial: string) returns (ok: bool)
      requires fs.Valid()
      modifies fs
      ensures var c := Revoke(old(fs.disk), name, serial);
              && fs.Valid() && fs.journal == old(fs.journal) + c.steps
              && ok == c.error.None?
              && fs.disk.passwd == old(fs.disk).passwd
    {
      var revoked := RevokedOf(fs.disk, name);
      if serial in revoked {
        return true;
      }
      revoked := revoked + {serial};
      fs.Do(WriteRevoked(name, revoked));
      ok := WriteCrlFor(name, revoked);
    }

    // writeCRL: one entry for each revoked serial that reads as a hex number.
    method WriteCrlFor(name: string, revoked: set<string>) returns (ok: bool)
      requires fs.Valid()
      modifies fs
      ensures fs.Valid() && ok == CaLoads(old(fs.disk), name) && fs.disk.passwd == old(fs.disk).passwd
      ensures fs.journal == old(fs.journal) + if ok then [WriteCrl(name, Numbers(revoked))] else []
    {
      if !CaLoads(fs.disk, name) {
        return false;
      }
      var entries := ListEntries(revoked);
      fs.Do(WriteCrl(name, entries));
      return true;
    }

    method ListEntries(revoked: set<string>) returns (entries: set<int>)
      ensures entries == Numbers(revoked)
    {
      hide Numbers, Numerals.ParseHex;
      NoNumbers();
      entries := {};
      var rest := revoked;
      assert revoked - rest == {};
      while rest != {}
        invariant rest <= revoked && entries == Numbers(revoked - rest)
        decreases rest
      {
        var h :| h in rest;
        NumbersOneMore(revoked - rest, h);
        assert revoked - (rest - {h}) == revoked - rest + {h};
        var n := Numerals.ParseHex(h);
        if n.Some? {
          entries := entries + {n.value};
        }
        rest := rest - {h};
      }
      assert revoked - {} == revoked;
    }
  }

  lemma NumbersOneMore(serials: set<string>, h: string)
    ensures Numbers(serials + {h})
         == Numbers(serials) + (if Numerals.ParseHex(h).Some? then {Numerals.ParseHex(h).value} else {})
  {
    hide Numerals.ParseHex;
  }
}
