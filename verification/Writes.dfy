/** Where each call writes: which files a call, stopped anywhere, can have touched. */
module Writes {
  import opened Wrappers
  import opened Records
  import opened Config
  import opened World
  import opened Plans
  import opened Durable
  import opened Crash
  import opened Recovery
  import opened SteadyState
  import opened SteadyInstances
  import opened SteadyClients
  import opened Runs
  import Numerals
  import Ocpasswd
  import Processes
  import Text

  // ------------------------------------------------ places

  datatype Place = InCerts | InRevoked | InPasswords | InMemory | InStore | Elsewhere

  function PlaceOf(s: Step): Place {
    match s
    case WriteCert(_, _) => InCerts
    case WriteRevoked(_, _) => InRevoked
    case WritePasswd(_, _) => InPasswords
    case SetMemory(_) => InMemory
    case RenameTmp => InStore
    case _ => Elsewhere
  }

  predicate Within(steps: seq<Step>, places: set<Place>) {
    forall i | 0 <= i < |steps| :: PlaceOf(steps[i]) in places
  }

  // What steps that write in some places leave alone.
  predicate Leaves(w: State, v: State, places: set<Place>) {
    && (InCerts !in places ==> v.disk.certs == w.disk.certs)
    && (InRevoked !in places ==> v.disk.revoked == w.disk.revoked)
    && (InPasswords !in places ==> v.disk.passwd == w.disk.passwd)
    && (InMemory !in places ==> v.mem == w.mem)
    && (InStore !in places ==> v.disk.state == w.disk.state)
  }

  lemma StepLeaves(w: State, s: Step, places: set<Place>)
    requires PlaceOf(s) in places
    ensures Leaves(w, Apply(w, s), places)
  {
    hide Started, Stopped, Reloaded, ApplyDisk;
    ProcessFrame(w, s);
    if !s.WriteCert? {
      OwnCerts(w.disk, s);
    }
    if !s.WriteRevoked? {
      OwnRevoked(w.disk, s);
    }
    if !s.WritePasswd? {
      OwnPasswords(w.disk, s);
    }
    if !s.RenameTmp? {
      OwnState(w.disk, s);
    }
    if s.SetMemory? || s.NoteIssued? || s.StartProcess? || s.StopProcess? || s.Hangup? {
      assert Apply(w, s).disk == w.disk;
    } else {
      assert Apply(w, s) == w.(disk := ApplyDisk(w.disk, s));
    }
  }

  lemma LeavesInTurn(a: State, b: State, c: State, places: set<Place>)
    requires Leaves(a, b, places) && Leaves(b, c, places)
    ensures Leaves(a, c, places)
  {
  }

  lemma LeavesItself(w: State, places: set<Place>)
    ensures Leaves(w, w, places)
  {
  }

  /** Steps that write in some places leave everything else alone. */
  lemma {:induction false} WithinLeaves(w: State, steps: seq<Step>, places: set<Place>)
    requires Within(steps, places)
    ensures Leaves(w, Exec(w, steps), places)
    decreases |steps|
  {
    hide Apply, PlaceOf, Leaves;
    if steps == [] {
      LeavesItself(w, places);
    } else {
      StepLeaves(w, steps[0], places);
      WithinLeaves(Apply(w, steps[0]), steps[1..], places);
      LeavesInTurn(w, Apply(w, steps[0]), Exec(w, steps), places);
    }
  }

  lemma WithinAppend(a: seq<Step>, b: seq<Step>, places: set<Place>)
    requires Within(a, places) && Within(b, places)
    ensures Within(a + b, places)
  {
    hide PlaceOf;
  }

  lemma WithinMore(steps: seq<Step>, few: set<Place>, many: set<Place>)
    requires Within(steps, few) && few <= many
    ensures Within(steps, many)
  {
    hide PlaceOf;
  }

  lemma WithinPrefix(steps: seq<Step>, k: nat, places: set<Place>)
    requires Within(steps, places) && k <= |steps|
    ensures Within(steps[..k], places)
  {
    hide PlaceOf;
  }

  const STORE := {InMemory, InStore, Elsewhere}

  lemma FlushWithin(data: StoreData)
    ensures Within(Flush(data), STORE)
  {
  }

  lemma NoneWithin(places: set<Place>)
    ensures Within([], places)
  {
  }

  // ------------------------------------------------ a plan that ends in its commit

  // Everything but the record store.
  const FILES := {InCerts, InRevoked, InPasswords, Elsewhere}

  /** A plan that ends in its commit changes memory at the end, and the store file with its last step. */
  lemma CommitsLast(w: State, front: seq<Step>, data: StoreData, k: nat)
    requires Within(front, FILES) && k <= |front + Flush(data)|
    ensures Exec(w, front + Flush(data)).mem == data
    ensures k < |front + Flush(data)| ==> Exec(w, (front + Flush(data))[..k]).disk.state == w.disk.state
  {
    hide Exec, PlaceOf, Leaves, Flush;
    var u := Exec(w, front);
    ExecAppend(w, front, Flush(data));
    FlushMemory(u, data);
    if k < |front + Flush(data)| {
      CutFlush(front, data, k);
      WithinLeaves(w, (front + Flush(data))[..k], FILES + {InMemory});
      StateLeft(w, Exec(w, (front + Flush(data))[..k]));
    }
  }

  lemma StateLeft(w: State, v: State)
    requires Leaves(w, v, FILES + {InMemory})
    ensures v.disk.state == w.disk.state
  {
  }

  lemma FlushMemory(u: State, data: StoreData)
    ensures Exec(u, Flush(data)).mem == data
  {
    hide Exec, Flush;
    FlushResult(u, data);
  }

  lemma CutFlush(front: seq<Step>, data: StoreData, k: nat)
    requires Within(front, FILES) && k < |front + Flush(data)|
    ensures Within((front + Flush(data))[..k], FILES + {InMemory})
  {
    var steps := front + Flush(data);
    forall i | 0 <= i < k ensures PlaceOf(steps[..k][i]) in FILES + {InMemory} {
      if i < |front| {
        assert steps[i] == front[i];
      } else {
        assert steps[i] == Flush(data)[i - |front|];
      }
    }
  }

  // Memory after a plan with its commit in the middle.
  lemma CommitsOnce(w: State, a: seq<Step>, data: StoreData, b: seq<Step>)
    requires Within(a, FILES) && Within(b, FILES)
    ensures Exec(w, a + (Flush(data) + b)).mem == data
  {
    hide *;
    var u := Exec(w, a);
    ExecAppend(w, a, Flush(data) + b);
    ExecAppend(u, Flush(data), b);
    FlushMemory(u, data);
    MemoryLeft(Exec(u, Flush(data)), b);
  }

  lemma MemoryLeft(w: State, steps: seq<Step>)
    requires Within(steps, FILES)
    ensures Exec(w, steps).mem == w.mem
  {
    hide Exec, Within;
    WithinLeaves(w, steps, FILES);
  }

  // ------------------------------------------------ lists of steps put together

  function AllBut(p: Place): set<Place> {
    {InCerts, InRevoked, InPasswords, InMemory, InStore, Elsewhere} - {p}
  }

  lemma AllButHas(p: Place)
    ensures p != Elsewhere ==> {Elsewhere} <= AllBut(p)
    ensures p != InPasswords ==> {InPasswords} <= AllBut(p)
    ensures p == InRevoked || p == InCerts || p == InPasswords ==> STORE <= AllBut(p)
    ensures p != InRevoked && p != Elsewhere ==> {InRevoked, Elsewhere} <= AllBut(p)
    ensures p != InCerts && p != Elsewhere ==> {InCerts, Elsewhere} <= AllBut(p)
  {
  }

  lemma FilesHas()
    ensures {Elsewhere} <= FILES && {InPasswords} <= FILES
    ensures {InRevoked, Elsewhere} <= FILES && {InCerts, Elsewhere} <= FILES
  {
  }

  // A plan whose first step is the only one that writes in its place.
  lemma FirstWrite(w: State, steps: seq<Step>, k: nat, p: Place)
    requires 0 < k <= |steps| && Within(steps[1..], AllBut(p))
    ensures Leaves(Apply(w, steps[0]), Exec(w, steps[..k]), AllBut(p))
  {
    hide Apply, PlaceOf, Leaves, AllBut;
    assert steps[..k][1..] == steps[1..][..k - 1];
    WithinPrefix(steps[1..], k - 1, AllBut(p));
    WithinLeaves(Apply(w, steps[0]), steps[1..][..k - 1], AllBut(p));
  }

  // Some files, a commit and some files: nothing but passwords and the store.
  lemma CommitWithin(a: seq<Step>, data: StoreData, b: seq<Step>)
    requires Within(a, {InPasswords, Elsewhere}) && Within(b, {Elsewhere})
    ensures Within(a + (Flush(data) + b), STORE + {InPasswords}) && Within(a, STORE + {InPasswords})
    ensures Within(a, FILES) && Within(b, FILES)
  {
    hide Within;
    var all := STORE + {InPasswords};
    FlushWithin(data);
    WithinMore(Flush(data), STORE, all);
    WithinMore(a, {InPasswords, Elsewhere}, all);
    WithinMore(b, {Elsewhere}, all);
    WithinMore(a, {InPasswords, Elsewhere}, FILES);
    WithinMore(b, {Elsewhere}, FILES);
    WithinAppend(Flush(data), b, all);
    WithinAppend(a, Flush(data) + b, all);
  }

  // Three parts and a commit, each in its places.
  lemma PartsWithin(
      a: seq<Step>, ap: set<Place>, password: seq<Step>, pin: seq<Step>, data: StoreData, all: set<Place>)
    requires Within(a, ap) && Within(password, {InPasswords}) && Within(pin, {Elsewhere})
    requires ap <= all && {InPasswords} <= all && {Elsewhere} <= all
    ensures Within(a + password, all) && Within(a + password + pin, all)
    ensures STORE <= all ==> Within(a + password + pin + Flush(data), all)
  {
    hide *;
    WithinMore(a, ap, all);
    WithinMore(password, {InPasswords}, all);
    WithinMore(pin, {Elsewhere}, all);
    WithinAppend(a, password, all);
    WithinAppend(a + password, pin, all);
    FlushWithin(data);
    if STORE <= all {
      WithinMore(Flush(data), STORE, all);
      WithinAppend(a + password + pin, Flush(data), all);
    }
  }

  lemma FlushNotEmpty(data: StoreData)
    ensures |Flush(data)| == 3
  {
  }

  // ------------------------------------------------ calls stopped anywhere

  lemma StoppedFiles(w: State, steps: seq<Step>, k: nat, torn: bool)
    requires k <= |steps|
    ensures var u, v := Exec(w, steps[..k]), Crashed(w, steps, k, torn);
            && v.disk.certs == u.disk.certs && v.disk.revoked == u.disk.revoked && v.disk.passwd == u.disk.passwd
            && (Synced(w) && u.disk.state == w.disk.state ==> v.mem == w.mem)
  {
    hide Exec;
  }

  lemma StoppedMemory(d: Dirs, w: State, r: Request, o: Outside, k: nat, torn: bool)
    requires Sound(d, w) && Synced(w) && Admissible(w, r, o) && k <= |Plan(d, w, r, o).steps|
    ensures var steps := Plan(d, w, r, o).steps;
            var v, post := Crashed(w, steps, k, torn), Exec(w, steps);
            && (v.mem == w.mem || v.mem == post.mem)
            && (k == |steps| ==> v.mem == post.mem && v.disk == post.disk)
  {
    hide Sound, Admissible, Plan, Exec;
    var steps := Plan(d, w, r, o).steps;
    CrashedSound(d, w, r, o, k, torn);
    CompletedSound(d, w, r, o);
    if k == |steps| {
      assert steps[..k] == steps;
    }
  }

  // ------------------------------------------------ the pieces of the calls

  lemma {:induction false} SyncWithin(clients: map<string, Client>, name: string, order: seq<string>)
    ensures Within(SyncPins(clients, name, order), {Elsewhere})
  {
    hide GoodName, PinFor, Unpinned;
    if order != [] {
      SyncWithin(clients, name, order[1..]);
    }
  }

  lemma StartWithin(
      d: Dirs, mem: StoreData, rec: Instance, order: seq<string>, starts: bool, alive: bool)
    ensures Within(WriteConfig(d, mem, rec, order).steps, {Elsewhere})
    ensures Within(StartInstance(d, mem, rec, order, starts, alive).steps, {Elsewhere})
  {
    hide Rendered, SyncPins;
    SyncWithin(ClientsOf(mem, rec.name), rec.name, order);
  }

  lemma PrepareWithin(d: Dirs, w: State, rec: Instance, o: Outside, name: string)
    ensures Within(EnsureCa(w.disk, name, o), {Elsewhere})
    ensures Within(Prepare(d, w, rec, o).steps, {Elsewhere})
  {
    hide WriteConfig, HostOnly, Ascii, CaLoads, ServerCertThere;
    StartWithin(d, w.mem, rec, o.firstOrder, false, false);
  }

  // ------------------------------------------------ the calls

  // CreateInstance seen as files, a commit and files, or as files alone.
  lemma CreateInstanceParts(d: Dirs, w: State, req: InstanceRequest, o: Outside)
      returns (a: seq<Step>, b: seq<Step>)
    ensures Within(a, {Elsewhere}) && Within(b, {Elsewhere})
    ensures var c := CreateInstancePlan(d, w, req, o);
            if c.error.None? then c.steps == a + (Flush(PutInstance(w.mem, NewInstance(req))) + b) else c.steps == a
  {
    hide *;
    var rec := NewInstance(req);
    CreateInstanceCases(d, w, req, o);
    a, b := [], [];
    NoneWithin({Elsewhere});
    if rec.name != "" && rec.name !in w.mem.instances && rec.poolCidr != "" {
      var after := PutInstance(w.mem, rec);
      var ca := if UsesCert(rec.authMode) || req.createCaIfEmpty then EnsureCa(w.disk, rec.name, o) else [];
      b := if rec.enabled then
             StartInstance(d, after, rec, o.secondOrder, o.starts, Alive(w, rec.name)).steps
           else [];
      PrepareWithin(d, w, rec, o, rec.name);
      StartWithin(d, after, rec, o.secondOrder, o.starts, Alive(w, rec.name));
      WithinAppend(ca, Prepare(d, w, rec, o).steps, {Elsewhere});
      a := ca + Prepare(d, w, rec, o).steps;
    }
  }

  lemma PatchInstanceParts(d: Dirs, w: State, name: string, body: Body, o: Outside)
      returns (a: seq<Step>, b: seq<Step>)
    requires Sound(d, w) && Synced(w)
    ensures Within(a, {Elsewhere}) && Within(b, {Elsewhere})
    ensures var c := PatchInstancePlan(d, w, name, body, o);
            if name in w.mem.instances && Rendered(d, Patched(w.mem.instances[name], body)).Some? then
              c.steps == a + (Flush(PutInstance(w.mem, Patched(w.mem.instances[name], body))) + b)
            else c.steps == []
  {
    hide Sound, Synced, Rendered, Patched, ListenersDiffer, WriteConfig, StartInstance, Flush, PutInstance,
         PatchInstancePlan;
    RefusedPatch(d, w, name, body, o);
    a, b := [], [];
    if name in w.mem.instances && Rendered(d, Patched(w.mem.instances[name], body)).Some? {
      var rec := Patched(w.mem.instances[name], body);
      var after := PutInstance(w.mem, rec);
      SoundShape(d, w, name);
      b := Processes.PatchPlanParts(d, w, name, body, o);
      StartWithin(d, w.mem, rec, o.firstOrder, o.starts, false);
      StartWithin(d, after, rec, o.secondOrder, o.starts, false);
      StartWithin(d, after, rec, o.secondOrder, o.starts, Alive(w, name));
      a := WriteConfig(d, w.mem, rec, o.firstOrder).steps;
    }
  }

  lemma DeleteInstanceParts(w: State, name: string) returns (a: seq<Step>)
    ensures Within(a, {Elsewhere})
    ensures DeleteInstancePlan(w, name).steps
         == if name in w.mem.instances then a + Flush(DropInstance(w.mem, name)) else []
  {
    hide DropInstance;
    a := [StopProcess(name), RemoveConf(name)];
  }

  lemma CreateClientParts(w: State, name: string, req: ClientRequest, o: Outside)
      returns (issue: seq<Step>, password: seq<Step>, pin: seq<Step>)
    ensures Within(issue, {InCerts, Elsewhere}) && Within(password, {InPasswords}) && Within(pin, {Elsewhere})
    ensures issue == if Issues(w, name, req) then Issue(w.disk, name, o).steps else []
    ensures password == if SetsPassword(w, name, req, o) then SetPassword(name, o).steps else []
    ensures var c := CreateClientPlan(w, name, req, o);
            if c.error.None? then
              && name in w.mem.instances
              && c.steps == issue + password + pin + Flush(PutClient(w.mem, name, Newcomer(w, name, req, o)))
            else c.steps == issue + password
  {
    hide *;
    issue := if Issues(w, name, req) then Issue(w.disk, name, o).steps else [];
    password := if SetsPassword(w, name, req, o) then SetPassword(name, o).steps else [];
    pin := [];
    IssueWithin(w.disk, name, o);
    if !Passes(w, name, req) {
      NotPassing(w, name, req, o);
    } else {
      PassesMeans(w, name, req);
      var cn := Text.Trim(req.commonName);
      var mode := OrAuth(req.authMode, w.mem.instances[name].authMode);
      pin := PinCall(name, cn, req.staticIp).steps;
      CreateClientCases(w, name, req, o);
      NewcomerIs(w, name, req, o);
      IssuePart(w, name, req, o);
      PasswordPartIs(w, name, req, o);
      PinErrorNoSteps(name, cn, req.staticIp);
      PinWithin(name, cn, req.staticIp);
    }
  }

  lemma IssueWithin(disk: Disk, name: string, o: Outside)
    ensures Within(Issue(disk, name, o).steps, {InCerts, Elsewhere})
    ensures Within(SetPassword(name, o).steps, {InPasswords})
    ensures Within([], {InCerts, Elsewhere}) && Within([], {InPasswords}) && Within([], {Elsewhere})
  {
    hide Numerals.Hex;
  }

  lemma PinWithin(name: string, cn: string, ip: string)
    ensures Within(PinCall(name, cn, ip).steps, {Elsewhere})
  {
    hide GoodName, PinFor, Unpinned;
  }

  lemma NotPassing(w: State, name: string, req: ClientRequest, o: Outside)
    requires !Passes(w, name, req)
    ensures CreateClientPlan(w, name, req, o).error.Some? && CreateClientPlan(w, name, req, o).steps == []
    ensures !Issues(w, name, req) && !SetsPassword(w, name, req, o)
  {
    hide Text.Trim;
  }

  lemma PassesMeans(w: State, name: string, req: ClientRequest)
    requires Passes(w, name, req)
    ensures name in w.mem.instances && Text.Trim(req.commonName) != ""
    ensures Text.Trim(req.commonName) !in ClientsOf(w.mem, name)
  {
    hide Text.Trim, ClientsOf;
  }

  lemma NewcomerIs(w: State, name: string, req: ClientRequest, o: Outside)
    requires name in w.mem.instances
    ensures Newcomer(w, name, req, o)
         == NewClient(name, Text.Trim(req.commonName), OrAuth(req.authMode, w.mem.instances[name].authMode), req, o)
  {
    hide Text.Trim, OrAuth, NewClient;
  }

  lemma IssuePart(w: State, name: string, req: ClientRequest, o: Outside)
    requires Passes(w, name, req)
    ensures var mode := OrAuth(req.authMode, w.mem.instances[name].authMode);
            var issue := if UsesCert(mode) then Issue(w.disk, name, o) else Nothing;
            && issue.steps == (if Issues(w, name, req) then Issue(w.disk, name, o).steps else [])
            && (issue.error.Some? <==> UsesCert(mode) && !CaLoads(w.disk, name))
  {
    hide Text.Trim, OrAuth, UsesCert;
  }

  lemma PasswordPartIs(w: State, name: string, req: ClientRequest, o: Outside)
    requires Passes(w, name, req)
    ensures var mode := OrAuth(req.authMode, w.mem.instances[name].authMode);
            var password := PasswordPart(mode, name, req, o);
            && (UsesCert(mode) && !CaLoads(w.disk, name) ==> !SetsPassword(w, name, req, o))
            && (!(UsesCert(mode) && !CaLoads(w.disk, name)) ==>
                  password.steps == if SetsPassword(w, name, req, o) then SetPassword(name, o).steps else [])
            && (password.error.Some? ==> password.steps == [])
  {
    hide Text.Trim, OrAuth, UsesCert, UsesPassword;
  }

  // A patch of a client seen as at most a password, a pin, and the commit.
  lemma PatchClientSteps(d: Dirs, w: State, name: string, cn: string, body: Body, o: Outside)
      returns (password: seq<Step>, pin: seq<Step>)
    requires Sound(d, w) && Synced(w) && cn in ClientsOf(w.mem, name)
    ensures Within(password, {InPasswords}) && Within(pin, {Elsewhere})
    ensures var c := PatchedClient(ClientsOf(w.mem, name)[cn], body);
            && password == PatchPassword(name, c, body, o).steps
            && (PatchClientPlan(w, name, cn, body, o).steps == password
                || PatchClientPlan(w, name, cn, body, o).steps
                   == password + pin + Flush(PutClient(w.mem, name, c)))
  {
    hide *;
    var c := PatchedClient(ClientsOf(w.mem, name)[cn], body);
    StoredName(d, w, name, cn);
    PatchedClientKeeps(ClientsOf(w.mem, name)[cn], body);
    PatchClientParts(w, name, cn, body, o);
    PatchPasswordWithin(name, c, body, o);
    PinWithin(name, c.commonName, c.staticIp);
    password, pin := PatchPassword(name, c, body, o).steps, PinCall(name, c.commonName, c.staticIp).steps;
    assert password + [] == password;
    assert password + (pin + Flush(PutClient(w.mem, name, c))) == password + pin + Flush(PutClient(w.mem, name, c));
  }

  lemma PatchPasswordWithin(name: string, c: Client, body: Body, o: Outside)
    ensures Within(PatchPassword(name, c, body, o).steps, {InPasswords})
  {
    hide NewPassword, UsesPassword;
  }

  lemma DeleteClientParts(d: Dirs, w: State, name: string, cn: string)
      returns (revoke: seq<Step>, password: seq<Step>, pin: seq<Step>)
    requires Sound(d, w) && Synced(w) && cn in ClientsOf(w.mem, name)
    ensures var c := ClientsOf(w.mem, name)[cn];
            && revoke == (if c.certSerial != "" then Revoke(w.disk, name, c.certSerial).steps + [Hangup(name)] else [])
            && password == (if UsesPassword(c.authMode) then DeletePassword(w.disk, name, cn) else [])
    ensures Within(revoke, {InRevoked, Elsewhere}) && Within(password, {InPasswords}) && Within(pin, {Elsewhere})
    ensures DeleteClientPlan(w, name, cn).error.None?
    ensures DeleteClientPlan(w, name, cn).steps
         == revoke + password + pin + Flush(DropClient(w.mem, name, cn))
  {
    hide *;
    var c := ClientsOf(w.mem, name)[cn];
    StoredName(d, w, name, cn);
    SoundShape(d, w, name);
    RevokeCompletes(d, w, name, c.certSerial);
    revoke := if c.certSerial != "" then Revoke(w.disk, name, c.certSerial).steps + [Hangup(name)] else [];
    password := if UsesPassword(c.authMode) then DeletePassword(w.disk, name, cn) else [];
    pin := if GoodName(cn) then [RemovePin(Slot(name, cn))] else [];
    DeleteWithin(w.disk, name, cn, c.certSerial);
    DeletePlanIs(w, name, cn);
  }

  lemma RevokeCompletes(d: Dirs, w: State, name: string, serial: string)
    requires Sound(d, w) && (serial != "" ==> Slot(name, serial) in w.issued)
    ensures serial != "" ==> Revoke(w.disk, name, serial).error.None?
  {
    hide Sound, Revoke;
    if serial != "" {
      RevokeSafe(d, w, name, serial, w.mem, {});
    }
  }

  lemma DeleteWithin(disk: Disk, name: string, cn: string, serial: string)
    ensures Within(Revoke(disk, name, serial).steps + [Hangup(name)], {InRevoked, Elsewhere})
    ensures Within(DeletePassword(disk, name, cn), {InPasswords}) && Within([RemovePin(Slot(name, cn))], {Elsewhere})
    ensures Within([], {InRevoked, Elsewhere}) && Within([], {InPasswords}) && Within([], {Elsewhere})
  {
    hide *;
    RevokeWithin(disk, name, serial);
    DeletePasswordWithin(disk, name, cn);
    OneElsewhere(Hangup(name));
    OneElsewhere(RemovePin(Slot(name, cn)));
    WithinMore([Hangup(name)], {Elsewhere}, {InRevoked, Elsewhere});
    WithinAppend(Revoke(disk, name, serial).steps, [Hangup(name)], {InRevoked, Elsewhere});
    NoneWithin({InRevoked, Elsewhere});
    NoneWithin({InPasswords});
    NoneWithin({Elsewhere});
  }

  lemma OneElsewhere(s: Step)
    requires s.Hangup? || s.RemovePin?
    ensures Within([s], {Elsewhere})
  {
  }

  lemma RevokeWithin(disk: Disk, name: string, serial: string)
    ensures Within(Revoke(disk, name, serial).steps, {InRevoked, Elsewhere})
  {
    hide Numbers, CaLoads, RevokedOf;
  }

  lemma DeletePasswordWithin(disk: Disk, name: string, cn: string)
    ensures Within(DeletePassword(disk, name, cn), {InPasswords})
  {
    hide PasswdOf, Ocpasswd.FileUsers, Ocpasswd.Deleted;
  }

  lemma DeletePlanIs(w: State, name: string, cn: string)
    requires cn in ClientsOf(w.mem, name)
    requires var c := ClientsOf(w.mem, name)[cn];
             c.certSerial != "" ==> Revoke(w.disk, name, c.certSerial).error.None?
    ensures DeleteClientPlan(w, name, cn).error.None?
    ensures var c := ClientsOf(w.mem, name)[cn];
            DeleteClientPlan(w, name, cn).steps
            == (if c.certSerial != "" then Revoke(w.disk, name, c.certSerial).steps + [Hangup(name)] else [])
               + (if UsesPassword(c.authMode) then DeletePassword(w.disk, name, cn) else [])
               + (if GoodName(cn) then [RemovePin(Slot(name, cn))] else [])
               + Flush(DropClient(w.mem, name, cn))
  {
    hide GoodName, DeletePassword, Revoke, Flush, DropClient, UsesPassword;
  }

  lemma PlanIs(d: Dirs, w: State, r: Request, o: Outside)
    ensures r.DeleteInstance? ==> Plan(d, w, r, o) == DeleteInstancePlan(w, r.name)
    ensures r.CreateClient? ==> Plan(d, w, r, o) == CreateClientPlan(w, r.name, r.peer, o)
    ensures r.DeleteClient? ==> Plan(d, w, r, o) == DeleteClientPlan(w, r.name, r.cn)
  {
    hide DeleteInstancePlan, CreateClientPlan, DeleteClientPlan;
  }
}
