/** Certificates: revoked.json and the CRL, in step or not, over single calls and whole runs. */
module Revocation {
  import opened Wrappers
  import opened Records
  import opened Config
  import opened World
  import opened Plans
  import opened Durable
  import opened Crash
  import opened Recovery
  import opened SteadyState
  import opened SteadyInstances
  import opened SteadyClients
  import opened Runs
  import Numerals
  import Processes
  import Text

  // ------------------------------------------------ revocation

  lemma NumbersOfHex(serials: set<string>, k: nat)
    requires forall h | h in serials :: HexKey(h)
    ensures k in Numbers(serials) <==> Numerals.Hex(k) in serials
  {
    hide Numerals.Hex, Numerals.ParseHex;
    Numerals.HexRoundTrip(k);
    if k in Numbers(serials) {
      var h :| h in serials && Numerals.ParseHex(h) == Some(k);
      var j: nat :| h == Numerals.Hex(j);
      Numerals.HexRoundTrip(j);
    }
  }

  lemma RevokedAreHex(d: Dirs, w: State, name: string)
    requires Sound(d, w)
    ensures forall h | h in RevokedOf(w.disk, name) :: HexKey(h) && Slot(name, h) in w.issued
  {
    hide HexKey, GoodData, CrlWithin;
    forall h | h in RevokedOf(w.disk, name) ensures HexKey(h) && Slot(name, h) in w.issued {
      assert Slot(name, h) in w.issued;
    }
  }

  /**
   * The CRL of section 5.1.2.6 of RFC 5280 lists exactly the serial numbers in
   * revoked.json, none skipped and none added.
   */
  lemma CrlIsRevokedSet(d: Dirs, w: State, name: string, k: nat)
    requires Steady(d, w)
    ensures k in CrlOf(w.disk, name) <==> Numerals.Hex(k) in RevokedOf(w.disk, name)
    ensures forall i | i in CrlOf(w.disk, name) :: i >= 0
  {
    hide Numerals.Hex, Numerals.ParseHex, GoodData, IssuedKept, RevokedIssued, CrlWithin, PinsExact, ConfExact,
         SerialsLive, CaSeeded, Numbers;
    assert CrlOf(w.disk, name) == Numbers(RevokedOf(w.disk, name));
    RevokedAreHex(d, w, name);
    NumbersOfHex(RevokedOf(w.disk, name), k);
    NumbersNatural(RevokedOf(w.disk, name));
  }

  lemma NumbersNatural(serials: set<string>)
    requires forall h | h in serials :: HexKey(h)
    ensures forall i | i in Numbers(serials) :: i >= 0
  {
    hide Numerals.Hex, Numerals.ParseHex;
    forall i | i in Numbers(serials) ensures i >= 0 {
      var h :| h in serials && Numerals.ParseHex(h) == Some(i);
      var j: nat :| h == Numerals.Hex(j);
      Numerals.HexRoundTrip(j);
    }
  }

  lemma NewNumber(serials: set<string>, h: string)
    requires forall x | x in serials + {h} :: HexKey(x)
    requires h !in serials
    ensures Numbers(serials) != Numbers(serials + {h})
  {
    hide Numerals.Hex, Numerals.ParseHex;
    assert h in serials + {h} && HexKey(h);
    var j: nat :| h == Numerals.Hex(j);
    NumbersOfHex(serials, j);
    NumbersOfHex(serials + {h}, j);
  }

  // A deletion that has a certificate to revoke.
  predicate Revoking(w: State, name: string, cn: string) {
    && cn in ClientsOf(w.mem, name)
    && var serial := ClientsOf(w.mem, name)[cn].certSerial;
       serial != "" && serial !in RevokedOf(w.disk, name)
  }

  lemma DeleteStartsWithRevoke(d: Dirs, w: State, name: string, cn: string)
    requires Sound(d, w) && Synced(w) && Revoking(w, name, cn)
    ensures var serial := ClientsOf(w.mem, name)[cn].certSerial;
            var grown := RevokedOf(w.disk, name) + {serial};
            var steps := DeleteClientPlan(w, name, cn).steps;
            && |steps| >= 2
            && steps[0] == WriteRevoked(name, grown) && steps[1] == WriteCrl(name, Numbers(grown))
            && (forall i | 2 <= i < |steps| :: !steps[i].WriteRevoked? && !steps[i].WriteCrl?)
            && (forall h | h in grown :: HexKey(h))
  {
    hide HexKey, GoodData, RevokedIssued, CrlWithin, Synced, GoodName, DropClient, Numbers, DeletePassword, RevokedOf,
         CaLoads;
    StoredName(d, w, name, cn);
    RevokedAreHex(d, w, name);
    var serial := ClientsOf(w.mem, name)[cn].certSerial;
    IssuedHasCa(w, Slot(name, serial));
    IssuedHex(w, Slot(name, serial));
    RevokeSteps(w.disk, name, serial);
    DeletePasswordSide(w.disk, name, cn);
  }

  lemma IssuedHex(w: State, slot: Slot)
    requires slot in w.issued && IssuedKept(w.disk, w.issued)
    ensures HexKey(slot.key)
  {
    hide HexKey;
  }

  lemma NoRevocationStep(w: State, s: Step)
    requires !s.WriteRevoked? && !s.WriteCrl?
    ensures Apply(w, s).disk.revoked == w.disk.revoked && Apply(w, s).disk.crl == w.disk.crl
  {
    hide Started, Reloaded, Stopped, ApplyDisk;
    ProcessFrame(w, s);
    NoRevocationWrite(w.disk, s);
  }

  lemma NoRevocationWrite(disk: Disk, s: Step)
    requires !s.WriteRevoked? && !s.WriteCrl?
    ensures ApplyDisk(disk, s).revoked == disk.revoked && ApplyDisk(disk, s).crl == disk.crl
  {
    hide ApplyDisk;
    if s.WriteConf? || s.RemoveConf? || s.WritePin? || s.RemovePin? {
      DerivedWrite(disk, s);
    } else {
      OtherWrite(disk, s);
    }
  }

  lemma DerivedWrite(disk: Disk, s: Step)
    requires s.WriteConf? || s.RemoveConf? || s.WritePin? || s.RemovePin?
    ensures ApplyDisk(disk, s).revoked == disk.revoked && ApplyDisk(disk, s).crl == disk.crl
  {
  }

  lemma OtherWrite(disk: Disk, s: Step)
    requires !s.WriteConf? && !s.RemoveConf? && !s.WritePin? && !s.RemovePin? && !s.WriteRevoked? && !s.WriteCrl?
    ensures ApplyDisk(disk, s).revoked == disk.revoked && ApplyDisk(disk, s).crl == disk.crl
  {
  }

  lemma {:induction false} NoRevocationSteps(w: State, steps: seq<Step>)
    requires forall i | 0 <= i < |steps| :: !steps[i].WriteRevoked? && !steps[i].WriteCrl?
    ensures Exec(w, steps).disk.revoked == w.disk.revoked && Exec(w, steps).disk.crl == w.disk.crl
    decreases |steps|
  {
    hide Apply;
    if steps != [] {
      NoRevocationStep(w, steps[0]);
      NoRevocationSteps(Apply(w, steps[0]), steps[1..]);
    }
  }

  // The CRL of an instance lists exactly its revoked serials.
  predicate CrlInStep(disk: Disk, name: string) {
    CrlOf(disk, name) == Numbers(RevokedOf(disk, name))
  }

  /**
   * Whatever the CRL was before: stopping a revoking DeleteClient after k steps
   * leaves it in step with revoked.json from the second write on, never after
   * the first write alone, and as it was when nothing was written.
   */
  lemma CrlInStepIff(d: Dirs, w: State, name: string, cn: string, k: nat)
    requires Sound(d, w) && Synced(w) && Revoking(w, name, cn)
    requires k <= |DeleteClientPlan(w, name, cn).steps|
    ensures |DeleteClientPlan(w, name, cn).steps| >= 2
    ensures var v := Exec(w, DeleteClientPlan(w, name, cn).steps[..k]);
            CrlInStep(v.disk, name) <==> k >= 2 || (k == 0 && CrlInStep(w.disk, name))
  {
    hide Exec, Sound, Synced, DeleteClientPlan, Numbers, HexKey, Apply, CrlWithin;
    var steps := DeleteClientPlan(w, name, cn).steps;
    var serial := ClientsOf(w.mem, name)[cn].certSerial;
    DeleteStartsWithRevoke(d, w, name, cn);
    NewNumber(RevokedOf(w.disk, name), serial);
    if k >= 2 {
      RevocationDone(w, steps[..k], name, RevokedOf(w.disk, name) + {serial});
    } else if k == 1 {
      assert steps[..k] == [steps[0]];
      ExecOne(w, steps[0]);
      RevokedWritten(w, name, RevokedOf(w.disk, name) + {serial});
      CrlNotAhead(d, w, name, RevokedOf(w.disk, name) + {serial});
    } else {
      assert steps[..k] == [];
      ExecNone(w);
    }
  }

  // The CRL of a sound state never lists what is about to be revoked.
  lemma CrlNotAhead(d: Dirs, w: State, name: string, grown: set<string>)
    requires Sound(d, w) && RevokedOf(w.disk, name) <= grown && Numbers(RevokedOf(w.disk, name)) != Numbers(grown)
    ensures CrlOf(w.disk, name) != Numbers(grown)
  {
    hide GoodData, IssuedKept, RevokedIssued, Numbers;
    NumbersMonotone(RevokedOf(w.disk, name), grown);
  }

  /**
   * So a crash inside DeleteClient leaves a CRL that was in step behind
   * revoked.json exactly when it falls between the two writes.
   */
  lemma CrlBehindIffBetweenWrites(d: Dirs, w: State, name: string, cn: string, k: nat, torn: bool)
    requires Sound(d, w) && Synced(w) && Revoking(w, name, cn) && CrlInStep(w.disk, name)
    requires k <= |DeleteClientPlan(w, name, cn).steps|
    ensures CrlInStep(Crashed(w, DeleteClientPlan(w, name, cn).steps, k, torn).disk, name) <==> k != 1
  {
    hide Exec, Sound, Synced, DeleteClientPlan, Numbers, Crashed;
    CrlInStepIff(d, w, name, cn, k);
    CrashedFiles(w, DeleteClientPlan(w, name, cn).steps, k, torn, name);
  }

  /** And the next revocation of any other certificate of the instance brings the CRL back into step. */
  lemma NextRevocationRepairs(d: Dirs, w: State, name: string, cn: string)
    requires Sound(d, w) && Synced(w) && Revoking(w, name, cn)
    ensures CrlInStep(Exec(w, DeleteClientPlan(w, name, cn).steps).disk, name)
  {
    hide Exec, Sound, Synced, DeleteClientPlan, Numbers;
    var steps := DeleteClientPlan(w, name, cn).steps;
    CrlInStepIff(d, w, name, cn, |steps|);
    assert steps[..|steps|] == steps;
  }

  lemma CrashedFiles(w: State, steps: seq<Step>, k: nat, torn: bool, name: string)
    requires k <= |steps|
    ensures var v := Exec(w, steps[..k]);
            && CrlOf(Crashed(w, steps, k, torn).disk, name) == CrlOf(v.disk, name)
            && RevokedOf(Crashed(w, steps, k, torn).disk, name) == RevokedOf(v.disk, name)
  {
    hide Exec;
  }

  lemma RevokedWritten(w: State, name: string, grown: set<string>)
    ensures var v := Apply(w, WriteRevoked(name, grown));
            CrlOf(v.disk, name) == CrlOf(w.disk, name) && RevokedOf(v.disk, name) == grown
  {
  }

  lemma CrlWritten(w: State, name: string, crl: set<int>)
    ensures var v := Apply(w, WriteCrl(name, crl));
            CrlOf(v.disk, name) == crl && RevokedOf(v.disk, name) == RevokedOf(w.disk, name)
  {
  }

  lemma RevocationDone(w: State, steps: seq<Step>, name: string, grown: set<string>)
    requires |steps| >= 2
    requires steps[0] == WriteRevoked(name, grown) && steps[1] == WriteCrl(name, Numbers(grown))
    requires forall i | 2 <= i < |steps| :: !steps[i].WriteRevoked? && !steps[i].WriteCrl?
    ensures var v := Exec(w, steps);
            CrlOf(v.disk, name) == Numbers(grown) && RevokedOf(v.disk, name) == grown
  {
    hide Exec, Apply, Numbers;
    var rest := steps[2..];
    var mid := Apply(w, steps[0]);
    assert steps == [steps[0]] + ([steps[1]] + rest);
    ExecAppend(w, [steps[0]], [steps[1]] + rest);
    ExecOne(w, steps[0]);
    ExecAppend(mid, [steps[1]], rest);
    ExecOne(mid, steps[1]);
    RevokedWritten(w, name, grown);
    CrlWritten(mid, name, Numbers(grown));
    NoRevocationSteps(Apply(mid, steps[1]), rest);
  }

  /**
   * Until then it stays behind: deleting the client again after such a crash
   * finds the serial already revoked and writes no CRL.
   */
  lemma CrlStaysBehind(w: State, name: string, cn: string)
    requires cn in ClientsOf(w.mem, name) && ClientsOf(w.mem, name)[cn].certSerial in RevokedOf(w.disk, name)
    ensures var v := Exec(w, DeleteClientPlan(w, name, cn).steps);
            && DeleteClientPlan(w, name, cn).error.None?
            && CrlOf(v.disk, name) == CrlOf(w.disk, name) && RevokedOf(v.disk, name) == RevokedOf(w.disk, name)
            && cn !in ClientsOf(v.mem, name)
  {
    hide *;
    var front := AlreadyRevoked(w, name, cn);
    var after := DropClient(w.mem, name, cn);
    NoRevocationSteps(w, front);
    ExecAppend(w, front, Flush(after));
    FlushResult(Exec(w, front), after);
    DropCommitted(w, Exec(w, front), name, cn);
  }

  lemma DropCommitted(w: State, u: State, name: string, cn: string)
    requires u.disk.revoked == w.disk.revoked && u.disk.crl == w.disk.crl
    ensures var v := Committed(u, DropClient(w.mem, name, cn));
            && CrlOf(v.disk, name) == CrlOf(w.disk, name) && RevokedOf(v.disk, name) == RevokedOf(w.disk, name)
            && cn !in ClientsOf(v.mem, name)
  {
  }

  // What deleting a client whose certificate is already revoked does before the store.
  lemma AlreadyRevoked(w: State, name: string, cn: string) returns (front: seq<Step>)
    requires cn in ClientsOf(w.mem, name) && ClientsOf(w.mem, name)[cn].certSerial in RevokedOf(w.disk, name)
    ensures DeleteClientPlan(w, name, cn).error.None?
    ensures DeleteClientPlan(w, name, cn).steps == front + Flush(DropClient(w.mem, name, cn))
    ensures forall i | 0 <= i < |front| :: !front[i].WriteRevoked? && !front[i].WriteCrl?
  {
    hide GoodName, Numbers, Exec, DeletePassword, UsesPassword, DropClient, Flush;
    var c := ClientsOf(w.mem, name)[cn];
    DeletePasswordSide(w.disk, name, cn);
    front := (if c.certSerial != "" then [Hangup(name)] else [])
             + (if UsesPassword(c.authMode) then DeletePassword(w.disk, name, cn) else [])
             + (if GoodName(cn) then [RemovePin(Slot(name, cn))] else []);
  }

  /**
   * "ocserv always has a file to read" holds exactly when no crash falls
   * between the CA key and the first CRL: after such a crash the CA loads, so
   * the next EnsureCa returns early and the CRL is never seeded.
   */
  lemma CrlSeededIff(w: State, name: string, first: Outside, second: Outside, k: nat, torn: bool)
    requires name !in w.disk.caCert && name !in w.disk.caKey && name !in w.disk.crl && k <= 3
    ensures |EnsureCa(w.disk, name, first)| == 3
    ensures var down := Crashed(w, EnsureCa(w.disk, name, first), k, torn);
            var v := Exec(down, EnsureCa(down.disk, name, second));
            CaLoads(v.disk, name) && (name in v.disk.crl <==> k != 2)
  {
    hide Exec, Apply, Crashed;
    var steps := EnsureCa(w.disk, name, first);
    SeedingStopped(w, name, first, k, torn);
    var down := Crashed(w, steps, k, torn);
    if k < 2 {
      SeedingDone(down, name, second);
    } else {
      ExecNone(down);
    }
  }

  lemma CrashedCa(w: State, steps: seq<Step>, k: nat, torn: bool)
    requires k <= |steps|
    ensures var u, v := Exec(w, steps[..k]).disk, Crashed(w, steps, k, torn).disk;
            v.caCert == u.caCert && v.caKey == u.caKey && v.crl == u.crl
  {
    hide Exec;
  }

  lemma SeedingSteps(disk: Disk, name: string, o: Outside)
    requires !CaLoads(disk, name)
    ensures EnsureCa(disk, name, o) == [WriteCaCert(name, o.caCert), WriteCaKey(name, o.caKey), WriteCrl(name, {})]
  {
  }

  lemma SeedingStopped(w: State, name: string, o: Outside, k: nat, torn: bool)
    requires name !in w.disk.caCert && name !in w.disk.caKey && name !in w.disk.crl && k <= 3
    ensures |EnsureCa(w.disk, name, o)| == 3
    ensures var v := Crashed(w, EnsureCa(w.disk, name, o), k, torn).disk;
            (name in v.caKey <==> k >= 2) && (name in v.caCert <==> k >= 1) && (name in v.crl <==> k == 3)
  {
    var steps := EnsureCa(w.disk, name, o);
    SeedingSteps(w.disk, name, o);
    hide Exec, Crashed, EnsureCa;
    CrashedCa(w, steps, k, torn);
    if k == 0 {
      assert steps[..k] == [];
      ExecNone(w);
    } else if k == 1 {
      assert steps[..k] == [steps[0]];
      ExecOne(w, steps[0]);
    } else if k == 2 {
      assert steps[..k] == [steps[0], steps[1]];
      ExecTwo(w, steps[0], steps[1]);
    } else {
      assert steps[..k] == steps;
      SeedingDone(w, name, o);
    }
  }

  lemma SeedingDone(w: State, name: string, o: Outside)
    requires !CaLoads(w.disk, name)
    ensures var v := Exec(w, EnsureCa(w.disk, name, o)).disk;
            name in v.caCert && name in v.caKey && name in v.crl
  {
    var steps := EnsureCa(w.disk, name, o);
    SeedingSteps(w.disk, name, o);
    hide Exec, EnsureCa;
    ExecThree(w, steps[0], steps[1], steps[2]);
  }

  /**
   * Deleting an instance is not a revocation: a certificate of one of its clients is
   * then neither stored nor revoked.
   */
  lemma DeleteInstanceRevokesNothing(d: Dirs, w: State, name: string, cn: string)
    requires Steady(d, w) && cn in ClientsOf(w.mem, name) && ClientsOf(w.mem, name)[cn].certSerial != ""
    ensures var serial := ClientsOf(w.mem, name)[cn].certSerial;
            var v := Exec(w, DeleteInstancePlan(w, name).steps);
            && Slot(name, serial) in v.issued
            && serial !in RevokedOf(v.disk, name)
            && ClientsOf(v.mem, name) == map[]
  {
    hide Exec, DeleteInstancePlan, Sound, Synced, ConfExact, PinsExact, CrlExact, CaSeeded, SerialsLive;
    StoredName(d, w, name, cn);
    NotYetRevoked(w, name, cn);
    DeleteInstanceResult(w, name);
  }

  // ------------------------------------------------ the CRL over whole runs

  // A step that does not touch the revocation files of an instance.
  predicate Spares(s: Step, name: string) {
    !(s.WriteRevoked? && s.name == name) && !(s.WriteCrl? && s.name == name)
  }

  lemma SpareStep(w: State, s: Step, name: string)
    requires Spares(s, name)
    ensures var v := Apply(w, s);
            CrlOf(v.disk, name) == CrlOf(w.disk, name) && RevokedOf(v.disk, name) == RevokedOf(w.disk, name)
  {
    hide Apply;
    if s.WriteRevoked? || s.WriteCrl? {
      OtherInstance(w, s, name);
    } else {
      NoRevocationStep(w, s);
    }
  }

  lemma OtherInstance(w: State, s: Step, name: string)
    requires (s.WriteRevoked? || s.WriteCrl?) && s.name != name
    ensures var v := Apply(w, s);
            CrlOf(v.disk, name) == CrlOf(w.disk, name) && RevokedOf(v.disk, name) == RevokedOf(w.disk, name)
  {
    hide Started, Stopped, Reloaded;
  }

  // Steps that at most write an empty CRL for an instance that has none.
  predicate SparesOrSeeds(s: Step, name: string) {
    Spares(s, name) || s == WriteCrl(name, {})
  }

  lemma {:induction false} SeedingSpares(w: State, steps: seq<Step>, name: string)
    requires forall i | 0 <= i < |steps| :: SparesOrSeeds(steps[i], name)
    requires CrlOf(w.disk, name) == {} || forall i | 0 <= i < |steps| :: Spares(steps[i], name)
    ensures var v := Exec(w, steps);
            CrlOf(v.disk, name) == CrlOf(w.disk, name) && RevokedOf(v.disk, name) == RevokedOf(w.disk, name)
    decreases |steps|
  {
    hide Apply, CrlOf, RevokedOf;
    if steps != [] {
      if Spares(steps[0], name) {
        SpareStep(w, steps[0], name);
      } else {
        CrlWritten(w, name, {});
      }
      SeedingSpares(Apply(w, steps[0]), steps[1..], name);
    }
  }

  predicate AllSpare(steps: seq<Step>, name: string) {
    forall i | 0 <= i < |steps| :: Spares(steps[i], name)
  }

  predicate AllSpareOrSeed(steps: seq<Step>, name: string) {
    forall i | 0 <= i < |steps| :: SparesOrSeeds(steps[i], name)
  }

  lemma QuietSpares(steps: seq<Step>, name: string)
    requires AllQuiet(steps)
    ensures AllSpare(steps, name)
  {
  }

  lemma SpareAppend(a: seq<Step>, b: seq<Step>, name: string)
    ensures AllSpare(a, name) && AllSpare(b, name) ==> AllSpare(a + b, name)
    ensures AllSpareOrSeed(a, name) && AllSpareOrSeed(b, name) ==> AllSpareOrSeed(a + b, name)
    ensures AllSpare(a, name) ==> AllSpareOrSeed(a, name)
  {
    hide Spares;
  }

  lemma FlushSpares(data: StoreData, name: string)
    ensures AllSpare(Flush(data), name)
  {
  }

  // Without a CA nothing is revoked and the CRL is empty or absent.
  lemma NoCaNoCrl(d: Dirs, w: State, name: string)
    requires Sound(d, w) && !CaLoads(w.disk, name)
    ensures CrlOf(w.disk, name) == {} && RevokedOf(w.disk, name) == {}
  {
    NoCaNothingRevoked(d, w, name);
    NoNumbers();
    hide GoodData, IssuedKept, RevokedIssued, Numbers;
  }

  lemma EnsureCaSpares(disk: Disk, n: string, o: Outside, name: string)
    ensures AllSpareOrSeed(EnsureCa(disk, n, o), name)
    ensures n != name || CaLoads(disk, n) ==> AllSpare(EnsureCa(disk, n, o), name)
  {
  }

  lemma CreateInstanceSpares(d: Dirs, w: State, req: InstanceRequest, o: Outside, name: string)
    ensures var steps := CreateInstancePlan(d, w, req, o).steps;
            && AllSpareOrSeed(steps, name)
            && (NewInstance(req).name != name || CaLoads(w.disk, name) ==> AllSpare(steps, name))
  {
    hide *;
    var rec := NewInstance(req);
    CreateInstanceCases(d, w, req, o);
    NoneSpare(name);
    if rec.name != "" && rec.name !in w.mem.instances && rec.poolCidr != "" {
      var ca := if UsesCert(rec.authMode) || req.createCaIfEmpty then EnsureCa(w.disk, rec.name, o) else [];
      var prepare := Prepare(d, w, rec, o);
      var after := PutInstance(w.mem, rec);
      var start := if rec.enabled then
                     StartInstance(d, after, rec, o.secondOrder, o.starts, Alive(w, rec.name)).steps
                   else [];
      EnsureCaSpares(w.disk, rec.name, o, name);
      PrepareQuiet(d, w, rec, o);
      StartQuiet(d, after, rec, o.secondOrder, o.starts, Alive(w, rec.name));
      NoneQuiet();
      QuietSpares(prepare.steps, name);
      QuietSpares(start, name);
      FlushSpares(after, name);
      SpareAppend(ca, prepare.steps, name);
      SpareAppend(prepare.steps, [], name);
      SpareAppend(Flush(after), start, name);
      SpareAppend(Flush(after) + start, [], name);
      SpareAppend(ca + prepare.steps, Flush(after) + start, name);
    }
  }

  lemma NoneSpare(name: string)
    ensures AllSpare([], name) && AllSpareOrSeed([], name)
  {
  }

  lemma PatchInstanceSpares(d: Dirs, w: State, n: string, body: Body, o: Outside, name: string)
    requires Sound(d, w) && Synced(w)
    ensures AllSpare(PatchInstancePlan(d, w, n, body, o).steps, name)
  {
    hide Rendered, Patched, ListenersDiffer, WriteConfig, StartInstance, Flush, PutInstance, Spares, Quiet, Sound,
         Synced;
    var steps := PatchInstancePlan(d, w, n, body, o).steps;
    if n in w.mem.instances && Rendered(d, Patched(w.mem.instances[n], body)).Some? {
      var rec := Patched(w.mem.instances[n], body);
      var after := PutInstance(w.mem, rec);
      SoundShape(d, w, n);
      var process := Processes.PatchPlanParts(d, w, n, body, o);
      StartQuiet(d, w.mem, rec, o.firstOrder, o.starts, false);
      StartQuiet(d, after, rec, o.secondOrder, o.starts, false);
      StartQuiet(d, after, rec, o.secondOrder, o.starts, Alive(w, n));
      ProcessQuiet(n);
      assert AllQuiet(process);
      QuietSpares(WriteConfig(d, w.mem, rec, o.firstOrder).steps, name);
      QuietSpares(process, name);
      FlushSpares(after, name);
      SpareAppend(Flush(after), process, name);
      SpareAppend(WriteConfig(d, w.mem, rec, o.firstOrder).steps, Flush(after) + process, name);
    } else {
      RefusedPatch(d, w, n, body, o);
    }
  }

  lemma ClientCallsSpare(w: State, n: string, req: ClientRequest, cn: string, body: Body, o: Outside, name: string)
    ensures AllSpare(CreateClientPlan(w, n, req, o).steps, name)
    ensures AllSpare(PatchClientPlan(w, n, cn, body, o).steps, name)
    ensures AllSpare(DeleteInstancePlan(w, n).steps, name)
  {
    hide *;
    CreateClientSpares(w, n, req, o, name);
    PatchClientSpares(w, n, cn, body, o, name);
    DeleteInstanceSpares(w, n, name);
  }

  lemma CreateClientSpares(w: State, n: string, req: ClientRequest, o: Outside, name: string)
    ensures AllSpare(CreateClientPlan(w, n, req, o).steps, name)
  {
    hide *;
    NoneSpare(name);
    var cn := Text.Trim(req.commonName);
    if n in w.mem.instances && cn != "" && cn !in ClientsOf(w.mem, n) {
      var mode := OrAuth(req.authMode, w.mem.instances[n].authMode);
      var issue := if UsesCert(mode) then Issue(w.disk, n, o) else Nothing;
      var password := PasswordPart(mode, n, req, o);
      var pin := PinCall(n, cn, req.staticIp);
      var after := PutClient(w.mem, n, NewClient(n, cn, mode, req, o));
      CreateClientCases(w, n, req, o);
      IssueSpares(w.disk, n, o, name);
      PasswordQuiet(mode, n, req, o);
      PinQuiet(n, cn, req.staticIp);
      QuietSpares(password.steps, name);
      QuietSpares(pin.steps, name);
      FlushSpares(after, name);
      SpareAppend(issue.steps, password.steps, name);
      SpareAppend(issue.steps + password.steps, pin.steps, name);
      SpareAppend(issue.steps + password.steps + pin.steps, Flush(after), name);
    } else {
      RefusedClient(w, n, req, o);
    }
  }

  lemma IssueSpares(disk: Disk, n: string, o: Outside, name: string)
    ensures AllSpare(Issue(disk, n, o).steps, name) && AllSpare(Nothing.steps, name)
  {
  }

  lemma PatchClientSpares(w: State, n: string, cn: string, body: Body, o: Outside, name: string)
    ensures AllSpare(PatchClientPlan(w, n, cn, body, o).steps, name)
  {
    hide GoodName, PinFor, Unpinned, PutClient, PatchedClient, NewPassword, UsesPassword;
  }

  lemma DeleteInstanceSpares(w: State, n: string, name: string)
    ensures AllSpare(DeleteInstancePlan(w, n).steps, name)
  {
    hide DropInstance;
  }

  lemma DeleteClientSpares(w: State, n: string, cn: string, name: string)
    requires n != name || !Revoking(w, n, cn)
    ensures AllSpare(DeleteClientPlan(w, n, cn).steps, name)
  {
    hide GoodName, Numbers, DeletePassword, UsesPassword, DropClient, CaLoads, RevokedOf;
    if cn in ClientsOf(w.mem, n) {
      PasswordSpares(w.disk, n, cn, name);
    }
  }

  lemma PasswordSpares(disk: Disk, n: string, cn: string, name: string)
    ensures AllSpare(DeletePassword(disk, n, cn), name)
  {
  }

  // A call that adds a serial to the revoked set of the instance.
  predicate RevokesAt(w: State, r: Request, name: string) {
    r.DeleteClient? && r.name == name && Revoking(w, name, r.cn)
  }

  /** What stopping any call after k steps, or not stopping it, means for the CRL of an instance. */
  lemma CallCrlIff(d: Dirs, w: State, r: Request, o: Outside, k: nat, name: string)
    requires Sound(d, w) && Synced(w) && k <= |Plan(d, w, r, o).steps|
    ensures var v := Exec(w, Plan(d, w, r, o).steps[..k]);
            CrlInStep(v.disk, name) <==>
              if RevokesAt(w, r, name) && k > 0 then k != 1 else CrlInStep(w.disk, name)
  {
    hide Sound, Synced, Exec, CreateInstancePlan, PatchInstancePlan, DeleteInstancePlan, CreateClientPlan,
         PatchClientPlan, DeleteClientPlan, Spares, SparesOrSeeds, Revoking, Numbers, CaLoads, NewInstance;
    var steps := Plan(d, w, r, o).steps;
    if RevokesAt(w, r, name) {
      CrlInStepIff(d, w, name, r.cn, k);
    } else {
      match r {
        case CreateInstance(req) => CreateInstanceSpares(d, w, req, o, name);
        case PatchInstance(n, body) => PatchInstanceSpares(d, w, n, body, o, name);
        case DeleteInstance(n) => ClientCallsSpare(w, n, ClientRequest("", "", Cert, "", ""), "", map[], o, name);
        case CreateClient(n, req) => ClientCallsSpare(w, n, req, "", map[], o, name);
        case PatchClient(n, cn, body) => ClientCallsSpare(w, n, ClientRequest("", "", Cert, "", ""), cn, body, o, name);
        case DeleteClient(n, cn) => DeleteClientSpares(w, n, cn, name);
      }
      if !CaLoads(w.disk, name) {
        NoCaNoCrl(d, w, name);
      }
      SpareAppend(steps, [], name);
      assert AllSpareOrSeed(steps, name) && (CrlOf(w.disk, name) == {} || AllSpare(steps, name));
      SeedingSpares(w, steps[..k], name);
    }
  }

  // What one event means for the CRL of an instance that was in step, or not, before.
  ghost predicate CrlStep(d: Dirs, w: State, e: Event, name: string, before: bool) {
    match e
    case ApiCall(r, _) => RevokesAt(w, r, name) || before
    case CrashInCall(r, _, k, _) => if RevokesAt(w, r, name) && k > 0 then k != 1 else before
    case _ => before
  }

  // In step after a run: the last revocation, if any, was not cut between its two writes.
  ghost predicate CrlAfter(d: Dirs, w: State, events: seq<Event>, name: string, before: bool)
    requires IsRun(d, w, events)
    decreases |events|
  {
    if events == [] then before
    else CrlAfter(d, Next(d, w, events[0]), events[1..], name, CrlStep(d, w, events[0], name, before))
  }

  lemma NextCrlIff(d: Dirs, w: State, e: Event, name: string)
    requires Sound(d, w) && Synced(w) && Possible(d, w, e)
    ensures CrlInStep(Next(d, w, e).disk, name) <==> CrlStep(d, w, e, name, CrlInStep(w.disk, name))
  {
    hide Sound, Synced, Exec, Plan, ReconcilePlan, Crashed, RevokesAt, Admissible, BootAdmissible, Quiet, Numbers;
    match e
    case ApiCall(r, o) =>
      var steps := Plan(d, w, r, o).steps;
      CallCrlIff(d, w, r, o, |steps|, name);
      assert steps[..|steps|] == steps;
      if RevokesAt(w, r, name) {
        LongEnough(d, w, r, o, name);
      }
    case CrashInCall(r, o, k, torn) =>
      CallCrlIff(d, w, r, o, k, name);
      CrashedFiles(w, Plan(d, w, r, o).steps, k, torn, name);
    case Reconcile(b) =>
      ReconcileQuiet(d, w.mem, b, b.order);
      QuietSafe(d, w, ReconcilePlan(d, w.mem, b, b.order), w.mem, {});
    case CrashInReconcile(b, k) =>
      var steps := ReconcilePlan(d, w.mem, b, b.order);
      ReconcileQuiet(d, w.mem, b, b.order);
      QuietSafe(d, w, steps[..k], w.mem, {});
      CrashedFiles(w, steps, k, false, name);
    case _ =>
  }

  lemma LongEnough(d: Dirs, w: State, r: Request, o: Outside, name: string)
    requires Sound(d, w) && Synced(w) && RevokesAt(w, r, name)
    ensures |Plan(d, w, r, o).steps| >= 2
  {
    hide Sound, Synced, DeleteClientPlan, Revoking, Exec;
    CrlInStepIff(d, w, name, r.cn, 0);
  }

  /**
   * In every run, crashes anywhere: the CRL of an instance lists exactly its
   * revoked serials if and only if the last revocation was not cut between its
   * two writes, or there was none and it was so at the start.
   */
  lemma {:induction false} RunCrlIff(d: Dirs, w: State, events: seq<Event>, name: string)
    requires Sound(d, w) && Synced(w) && IsRun(d, w, events)
    ensures CrlInStep(After(d, w, events).disk, name) <==> CrlAfter(d, w, events, name, CrlInStep(w.disk, name))
    decreases |events|
  {
    hide Sound, Synced, Possible, Next, CrlStep, CrlInStep, Accumulates, Lost, AllRevoked;
    if events != [] {
      NextCrlIff(d, w, events[0], name);
      NextSound(d, w, events[0]);
      RunCrlIff(d, Next(d, w, events[0]), events[1..], name);
    }
  }
}
