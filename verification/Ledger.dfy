/** What has become of every certificate: who holds it, whether it is revoked, and which calls leave it to nobody. */
module Ledger {
  import opened Wrappers
  import opened Records
  import opened Config
  import opened World
  import opened Plans
  import opened Durable
  import opened Crash
  import opened Recovery
  import opened SteadyState
  import opened SteadyInstances
  import opened SteadyClients
  import opened Runs
  import opened Writes
  import Numerals
  import Revocation
  import Text

  // ------------------------------------------------ the account

  predicate Stored(w: State, slot: Slot) {
    slot in Serials(w.mem)
  }

  predicate IsRevoked(w: State, slot: Slot) {
    slot.key in RevokedOf(w.disk, slot.instance)
  }

  // written: every certificate there is. unowned: held by no stored client and not revoked.
  // lingering: revoked, but still held by a stored client.
  datatype Account = Account(written: set<Slot>, unowned: set<Slot>, lingering: set<Slot>)

  function Reckoned(w: State): Account {
    Account(
      w.disk.certs.Keys,
      set slot | slot in w.disk.certs && !Stored(w, slot) && !IsRevoked(w, slot),
      set slot | slot in Serials(w.mem) && IsRevoked(w, slot))
  }

  // The certificates that stored clients of one instance hold.
  function Belonging(w: State, name: string): set<Slot> {
    set slot | slot in Serials(w.mem) && slot.instance == name
  }

  // What the first k of the n steps of a call do to the account, read off the request and the state before it.
  function Posted(a: Account, w: State, r: Request, o: Outside, k: nat, n: nat): Account {
    match r
    case CreateClient(name, req) =>
      var slot := Slot(name, Numerals.Hex(o.serial));
      if !Issues(w, name, req) || k == 0 then a
      else if k == n && Completes(w, name, req, o) then a.(written := a.written + {slot})
      else a.(written := a.written + {slot}, unowned := a.unowned + {slot})
    case DeleteInstance(name) =>
      if k < n then a
      else
        a.(unowned := a.unowned + (Belonging(w, name) - a.lingering), lingering := a.lingering - Belonging(w, name))
    case DeleteClient(name, cn) =>
      if cn !in ClientsOf(w.mem, name) || k == 0 || ClientsOf(w.mem, name)[cn].certSerial == "" then a
      else
        var slot := Slot(name, ClientsOf(w.mem, name)[cn].certSerial);
        if k < n then a.(lingering := a.lingering + {slot}) else a.(lingering := a.lingering - {slot})
    case _ => a
  }

  // The account after a run.
  ghost function Balance(d: Dirs, w: State, events: seq<Event>, a: Account): Account
    requires IsRun(d, w, events)
    decreases |events|
  {
    if events == [] then a
    else Balance(d, Next(d, w, events[0]), events[1..], PostedBy(a, d, w, events[0]))
  }

  function PostedBy(a: Account, d: Dirs, w: State, e: Event): Account {
    match e
    case ApiCall(r, o) => Posted(a, w, r, o, |Plan(d, w, r, o).steps|, |Plan(d, w, r, o).steps|)
    case CrashInCall(r, o, k, _) => Posted(a, w, r, o, k, |Plan(d, w, r, o).steps|)
    case _ => a
  }

  // The client x holds the certificate.
  predicate HeldBy(data: StoreData, slot: Slot, x: string) {
    && x in ClientsOf(data, slot.instance)
    && ClientsOf(data, slot.instance)[x].certSerial == slot.key && slot.key != ""
  }

  // No two clients hold the same certificate.
  ghost predicate Unshared(data: StoreData) {
    forall slot, x, y | HeldBy(data, slot, x) && HeldBy(data, slot, y) :: x == y
  }

  lemma SerialsIs(data: StoreData, slot: Slot)
    ensures slot in Serials(data) <==> exists x :: HeldBy(data, slot, x)
  {
    if slot in Serials(data) {
      var n, cn :| n in data.clients && cn in data.clients[n] && data.clients[n][cn].certSerial != ""
                   && slot == Slot(n, data.clients[n][cn].certSerial);
      assert HeldBy(data, slot, cn);
    }
    if cn :| HeldBy(data, slot, cn) {
      assert slot.instance in data.clients && cn in data.clients[slot.instance];
    }
  }

  lemma SteadyUnshared(d: Dirs, w: State)
    requires Steady(d, w)
    ensures Unshared(w.mem) && Reckoned(w).lingering == {}
  {
    hide Sound, Synced, ConfExact, PinsExact, CrlExact, CaSeeded, RevokedOf;
    forall slot, x, y | HeldBy(w.mem, slot, x) && HeldBy(w.mem, slot, y) ensures x == y {
      assert SerialLive(w, slot.instance, x);
    }
    forall slot | slot in Serials(w.mem) ensures !IsRevoked(w, slot) {
      SerialsIs(w.mem, slot);
      var x :| HeldBy(w.mem, slot, x);
      assert SerialLive(w, slot.instance, x);
    }
  }

  // Certificates that are held or revoked have been written.
  lemma WrittenFirst(d: Dirs, w: State, slot: Slot)
    requires Sound(d, w) && Synced(w)
    ensures Stored(w, slot) || IsRevoked(w, slot) || slot in w.issued ==> slot in w.disk.certs
  {
    hide Rendered, GoodName, PinFor, Unpinned, HexKey, CrlWithin;
    if Stored(w, slot) {
      SerialsIs(w.mem, slot);
      var x :| HeldBy(w.mem, slot, x);
      assert GoodClient(w.mem.clients[slot.instance][x], w.issued);
    }
  }

  lemma StoredWritten(d: Dirs, w: State)
    requires Sound(d, w) && Synced(w)
    ensures forall slot :: Stored(w, slot) || IsRevoked(w, slot) ==> slot in w.disk.certs
  {
    hide Sound, Synced, Stored, IsRevoked;
    forall slot ensures Stored(w, slot) || IsRevoked(w, slot) ==> slot in w.disk.certs {
      WrittenFirst(d, w, slot);
    }
  }

  // ------------------------------------------------ records come and go

  // Of the certificates held in data, exactly those in gone are held no longer.
  ghost predicate Released(data: StoreData, post: StoreData, gone: set<Slot>) {
    forall slot: Slot, x: string :: HeldBy(post, slot, x) <==> HeldBy(data, slot, x) && slot !in gone
  }

  lemma ReleasedSerials(data: StoreData, post: StoreData, gone: set<Slot>)
    requires Released(data, post, gone)
    ensures Serials(post) == Serials(data) - gone
    ensures Unshared(data) ==> Unshared(post)
  {
    hide Serials, HeldBy;
    forall slot: Slot ensures slot in Serials(post) <==> slot in Serials(data) && slot !in gone {
      SerialsIs(post, slot);
      SerialsIs(data, slot);
    }
  }

  // A record brings no clients of its own.
  lemma PutReleases(data: StoreData, rec: Instance)
    requires Shape(data)
    ensures Released(data, PutInstance(data, rec), {}) && Released(data, data, {})
  {
    forall slot: Slot ensures ClientsOf(PutInstance(data, rec), slot.instance) == ClientsOf(data, slot.instance) {
    }
  }

  lemma SameSerialReleases(data: StoreData, name: string, cn: string, c: Client)
    requires cn in ClientsOf(data, name) && c.commonName == cn && c.certSerial == ClientsOf(data, name)[cn].certSerial
    ensures Released(data, PutClient(data, name, c), {})
  {
  }

  lemma DropInstanceReleases(w: State, name: string)
    ensures Released(w.mem, DropInstance(w.mem, name), Belonging(w, name))
  {
    hide Serials;
    forall slot: Slot, x: string
      ensures HeldBy(DropInstance(w.mem, name), slot, x) <==> HeldBy(w.mem, slot, x) && slot !in Belonging(w, name)
    {
      SerialsIs(w.mem, slot);
    }
  }

  lemma DropClientReleases(data: StoreData, name: string, cn: string)
    requires Unshared(data) && cn in ClientsOf(data, name)
    ensures Released(data, DropClient(data, name, cn), {Slot(name, ClientsOf(data, name)[cn].certSerial)})
  {
    var slot := Slot(name, ClientsOf(data, name)[cn].certSerial);
    if slot.key != "" {
      assert HeldBy(data, slot, cn);
    }
  }

  lemma NewSerials(data: StoreData, name: string, c: Client)
    requires c.commonName !in ClientsOf(data, name) && Slot(name, c.certSerial) !in Serials(data) && Unshared(data)
    ensures var post := PutClient(data, name, c);
            Unshared(post)
            && Serials(post) == Serials(data) + (if c.certSerial != "" then {Slot(name, c.certSerial)} else {})
  {
    hide Serials;
    var post, added := PutClient(data, name, c), Slot(name, c.certSerial);
    forall slot: Slot, x: string
      ensures HeldBy(post, slot, x) <==>
                HeldBy(data, slot, x) || (slot == added && x == c.commonName && c.certSerial != "")
    {
    }
    hide HeldBy, PutClient;
    SerialsIs(data, added);
    if c.certSerial != "" {
      assert HeldBy(post, added, c.commonName);
    }
    forall slot: Slot
      ensures slot in Serials(post) <==> slot in Serials(data) || (c.certSerial != "" && slot == added)
    {
      SerialsIs(post, slot);
      SerialsIs(data, slot);
    }
  }

  // ------------------------------------------------ calls that change no certificate

  lemma SameReckoned(w: State, v: State)
    requires v.disk.certs == w.disk.certs && v.disk.revoked == w.disk.revoked && Serials(v.mem) == Serials(w.mem)
    ensures Reckoned(v) == Reckoned(w)
  {
    hide Serials;
  }

  // Calls that write no certificate, revoke nothing and release none.
  lemma KeepsAccount(d: Dirs, w: State, r: Request, o: Outside, k: nat, torn: bool)
    requires Sound(d, w) && Synced(w) && Admissible(w, r, o) && k <= |Plan(d, w, r, o).steps| && Unshared(w.mem)
    requires Within(Plan(d, w, r, o).steps, STORE + {InPasswords})
    requires Released(w.mem, Exec(w, Plan(d, w, r, o).steps).mem, {})
    ensures var v := Crashed(w, Plan(d, w, r, o).steps, k, torn); Reckoned(v) == Reckoned(w) && Unshared(v.mem)
  {
    hide *;
    var steps := Plan(d, w, r, o).steps;
    var v := Crashed(w, steps, k, torn);
    StoppedFiles(w, steps, k, torn);
    StoppedMemory(d, w, r, o, k, torn);
    WithinPrefix(steps, k, STORE + {InPasswords});
    WithinLeaves(w, steps[..k], STORE + {InPasswords});
    StoreLeaves(w, Exec(w, steps[..k]));
    ReleasedSerials(w.mem, Exec(w, steps).mem, {});
    assert Serials(w.mem) - {} == Serials(w.mem);
    SameReckoned(w, v);
  }

  lemma StoreLeaves(w: State, v: State)
    requires Leaves(w, v, STORE + {InPasswords})
    ensures v.disk.certs == w.disk.certs && v.disk.revoked == w.disk.revoked
  {
  }

  lemma CreateInstanceKeeps(d: Dirs, w: State, req: InstanceRequest, o: Outside)
    requires Sound(d, w) && Synced(w)
    ensures var c := CreateInstancePlan(d, w, req, o);
            var v := Exec(w, c.steps);
            && Within(c.steps, STORE + {InPasswords})
            && v.mem == (if c.error.None? then PutInstance(w.mem, NewInstance(req)) else w.mem)
            && Released(w.mem, v.mem, {})
  {
    hide *;
    var after := PutInstance(w.mem, NewInstance(req));
    var a, b := CreateInstanceParts(d, w, req, o);
    WithinMore(a, {Elsewhere}, {InPasswords, Elsewhere});
    CommitWithin(a, after, b);
    CommitsOnce(w, a, after, b);
    MemoryLeft(w, a);
    SoundShape(d, w, "");
    PutReleases(w.mem, NewInstance(req));
  }

  lemma PatchInstanceKeeps(d: Dirs, w: State, name: string, body: Body, o: Outside)
    requires Sound(d, w) && Synced(w)
    ensures var steps := PatchInstancePlan(d, w, name, body, o).steps;
            Within(steps, STORE + {InPasswords}) && Released(w.mem, Exec(w, steps).mem, {})
  {
    hide *;
    var a, b := PatchInstanceParts(d, w, name, body, o);
    SoundShape(d, w, name);
    NoneWithin(STORE + {InPasswords});
    ExecNone(w);
    if name in w.mem.instances && Rendered(d, Patched(w.mem.instances[name], body)).Some? {
      var rec := Patched(w.mem.instances[name], body);
      WithinMore(a, {Elsewhere}, {InPasswords, Elsewhere});
      CommitWithin(a, PutInstance(w.mem, rec), b);
      CommitsOnce(w, a, PutInstance(w.mem, rec), b);
      PutReleases(w.mem, rec);
    } else {
      NothingReleased(w.mem);
    }
  }

  lemma NothingReleased(data: StoreData)
    ensures Released(data, data, {})
  {
  }

  lemma PatchClientKeeps(d: Dirs, w: State, name: string, cn: string, body: Body, o: Outside)
    requires Sound(d, w) && Synced(w)
    ensures var steps := PatchClientPlan(w, name, cn, body, o).steps;
            Within(steps, STORE + {InPasswords}) && Released(w.mem, Exec(w, steps).mem, {})
  {
    hide *;
    NoneWithin(STORE + {InPasswords});
    NothingReleased(w.mem);
    ExecNone(w);
    if cn !in ClientsOf(w.mem, name) {
      UnknownPatch(w, name, cn, body, o);
    } else {
      var c := PatchedClient(ClientsOf(w.mem, name)[cn], body);
      var after := PutClient(w.mem, name, c);
      var password, pin := PatchClientSteps(d, w, name, cn, body, o);
      PasswordThenPin(password, pin);
      NoneWithin({Elsewhere});
      CommitWithin(password + pin, after, []);
      CommitsOnce(w, password + pin, after, []);
      CommitWithin(password, after, []);
      MemoryLeft(w, password);
      assert password + pin + (Flush(after) + []) == password + pin + Flush(after);
      StoredName(d, w, name, cn);
      PatchedClientKeeps(ClientsOf(w.mem, name)[cn], body);
      SameSerialReleases(w.mem, name, cn, c);
    }
  }

  lemma PasswordThenPin(password: seq<Step>, pin: seq<Step>)
    requires Within(password, {InPasswords}) && Within(pin, {Elsewhere})
    ensures Within(password, {InPasswords, Elsewhere}) && Within(password + pin, {InPasswords, Elsewhere})
  {
    hide PlaceOf;
  }

  // ------------------------------------------------ DeleteInstance

  lemma DeleteInstanceStopped(d: Dirs, w: State, name: string, o: Outside, k: nat, torn: bool)
    requires Sound(d, w) && Synced(w) && Admissible(w, DeleteInstance(name), o) && Unshared(w.mem)
    requires k <= |DeleteInstancePlan(w, name).steps|
    ensures var steps := DeleteInstancePlan(w, name).steps;
            var v := Crashed(w, steps, k, torn);
            && Reckoned(v) == Posted(Reckoned(w), w, DeleteInstance(name), o, k, |steps|)
            && Unshared(v.mem)
  {
    hide *;
    var steps := DeleteInstancePlan(w, name).steps;
    var v := Crashed(w, steps, k, torn);
    var a := DeleteInstanceParts(w, name);
    PlanIs(d, w, DeleteInstance(name), o);
    StoppedFiles(w, steps, k, torn);
    StoppedMemory(d, w, DeleteInstance(name), o, k, torn);
    if name in w.mem.instances {
      var after := DropInstance(w.mem, name);
      WithinMore(a, {Elsewhere}, {InPasswords, Elsewhere});
      NoneWithin({Elsewhere});
      CommitWithin(a, after, []);
      assert a + (Flush(after) + []) == steps;
      CommitsLast(w, a, after, k);
      WithinPrefix(steps, k, STORE + {InPasswords});
      WithinLeaves(w, steps[..k], STORE + {InPasswords});
      StoreLeaves(w, Exec(w, steps[..k]));
      DropInstanceReleases(w, name);
      ReleasedSerials(w.mem, after, Belonging(w, name));
    } else {
      ExecNone(w);
      assert steps[..k] == [];
      SoundShape(d, w, name);
      NothingBelongs(w, name);
    }
    StoredWritten(d, w);
    DeleteInstancePosted(w, v, name, o, k, |steps|);
  }

  lemma NothingBelongs(w: State, name: string)
    requires name !in w.mem.clients
    ensures Serials(w.mem) - Belonging(w, name) == Serials(w.mem)
  {
  }

  lemma DeleteInstancePosted(w: State, v: State, name: string, o: Outside, k: nat, n: nat)
    requires v.disk.certs == w.disk.certs && v.disk.revoked == w.disk.revoked && k <= n
    requires forall slot :: Stored(w, slot) ==> slot in w.disk.certs
    requires Serials(v.mem) == if k < n then Serials(w.mem) else Serials(w.mem) - Belonging(w, name)
    ensures Reckoned(v) == Posted(Reckoned(w), w, DeleteInstance(name), o, k, n)
  {
    hide Serials;
  }

  // ------------------------------------------------ DeleteClient

  lemma DeleteStoppedRevoked(d: Dirs, w: State, name: string, cn: string, k: nat, slot: Slot)
    requires Sound(d, w) && Synced(w) && cn in ClientsOf(w.mem, name) && k <= |DeleteClientPlan(w, name, cn).steps|
    ensures var serial := ClientsOf(w.mem, name)[cn].certSerial;
            IsRevoked(Exec(w, DeleteClientPlan(w, name, cn).steps[..k]), slot) <==>
              IsRevoked(w, slot) || (k > 0 && serial != "" && slot == Slot(name, serial))
  {
    hide *;
    var steps := DeleteClientPlan(w, name, cn).steps;
    var serial := ClientsOf(w.mem, name)[cn].certSerial;
    PendingIff(w, name, cn);
    if Revocation.Revoking(w, name, cn) && k > 0 {
      Revocation.DeleteStartsWithRevoke(d, w, name, cn);
      OneRevoked(steps);
      FirstWrite(w, steps, k, InRevoked);
      RevokedSlot(w, Exec(w, steps[..k]), name, serial, slot);
    } else {
      if k > 0 {
        RevokesNothing(d, w, name, cn);
        WithinPrefix(steps, k, AllBut(InRevoked));
      } else {
        assert steps[..k] == [];
        NoneWithin(AllBut(InRevoked));
      }
      WithinLeaves(w, steps[..k], AllBut(InRevoked));
      SameRevocation(w, Exec(w, steps[..k]), slot);
    }
  }

  lemma PendingIff(w: State, name: string, cn: string)
    requires cn in ClientsOf(w.mem, name)
    ensures var serial := ClientsOf(w.mem, name)[cn].certSerial;
            Revocation.Revoking(w, name, cn) <==> serial != "" && !IsRevoked(w, Slot(name, serial))
  {
  }

  lemma OneRevoked(steps: seq<Step>)
    requires |steps| >= 2 && steps[1].WriteCrl?
    requires forall i | 2 <= i < |steps| :: !steps[i].WriteRevoked? && !steps[i].WriteCrl?
    ensures Within(steps[1..], AllBut(InRevoked))
  {
    forall i | 0 <= i < |steps[1..]| ensures PlaceOf(steps[1..][i]) in AllBut(InRevoked) {
      assert steps[1..][i] == steps[i + 1];
    }
  }

  lemma RevokedSlot(w: State, v: State, name: string, serial: string, slot: Slot)
    requires Leaves(Apply(w, WriteRevoked(name, RevokedOf(w.disk, name) + {serial})), v, AllBut(InRevoked))
    ensures IsRevoked(v, slot) <==> IsRevoked(w, slot) || slot == Slot(name, serial)
  {
  }

  lemma SameRevocation(w: State, v: State, slot: Slot)
    requires Leaves(w, v, AllBut(InRevoked))
    ensures IsRevoked(v, slot) == IsRevoked(w, slot)
  {
  }

  lemma RevokesNothing(d: Dirs, w: State, name: string, cn: string)
    requires Sound(d, w) && Synced(w) && cn in ClientsOf(w.mem, name) && !Revocation.Revoking(w, name, cn)
    ensures Within(DeleteClientPlan(w, name, cn).steps, AllBut(InRevoked))
  {
    hide *;
    var others := AllBut(InRevoked);
    var revoke, password, pin := DeleteClientParts(d, w, name, cn);
    HangupOnly(w, name, cn);
    AllButHas(InRevoked);
    WithinMore(revoke, {Elsewhere}, others);
    WithinMore(password, {InPasswords}, others);
    WithinMore(pin, {Elsewhere}, others);
    FlushWithin(DropClient(w.mem, name, cn));
    WithinMore(Flush(DropClient(w.mem, name, cn)), STORE, others);
    WithinAppend(revoke, password, others);
    WithinAppend(revoke + password, pin, others);
    WithinAppend(revoke + password + pin, Flush(DropClient(w.mem, name, cn)), others);
  }

  lemma HangupOnly(w: State, name: string, cn: string)
    requires cn in ClientsOf(w.mem, name) && !Revocation.Revoking(w, name, cn)
    ensures var serial := ClientsOf(w.mem, name)[cn].certSerial;
            Within(if serial != "" then Revoke(w.disk, name, serial).steps + [Hangup(name)] else [], {Elsewhere})
  {
  }

  lemma DeleteStoppedStore(d: Dirs, w: State, name: string, cn: string, k: nat)
    requires Sound(d, w) && Synced(w) && cn in ClientsOf(w.mem, name) && k <= |DeleteClientPlan(w, name, cn).steps|
    ensures var steps := DeleteClientPlan(w, name, cn).steps;
            && Exec(w, steps).mem == DropClient(w.mem, name, cn)
            && |steps| > 0
            && Exec(w, steps[..k]).disk.certs == w.disk.certs
            && (k < |steps| ==> Exec(w, steps[..k]).disk.state == w.disk.state)
  {
    hide *;
    var steps := DeleteClientPlan(w, name, cn).steps;
    var after := DropClient(w.mem, name, cn);
    var revoke, password, pin := DeleteClientParts(d, w, name, cn);
    FilesHas();
    AllButHas(InCerts);
    PartsWithin(revoke, {InRevoked, Elsewhere}, password, pin, after, FILES);
    PartsWithin(revoke, {InRevoked, Elsewhere}, password, pin, after, AllBut(InCerts));
    CommitsLast(w, revoke + password + pin, after, k);
    WithinPrefix(steps, k, AllBut(InCerts));
    WithinLeaves(w, steps[..k], AllBut(InCerts));
    CertsLeft(w, Exec(w, steps[..k]));
    FlushNotEmpty(after);
  }

  lemma CertsLeft(w: State, v: State)
    requires Leaves(w, v, AllBut(InCerts))
    ensures v.disk.certs == w.disk.certs
  {
  }

  lemma DeleteClientStopped(d: Dirs, w: State, name: string, cn: string, o: Outside, k: nat, torn: bool)
    requires Sound(d, w) && Synced(w) && Admissible(w, DeleteClient(name, cn), o) && Unshared(w.mem)
    requires k <= |DeleteClientPlan(w, name, cn).steps|
    ensures var steps := DeleteClientPlan(w, name, cn).steps;
            var v := Crashed(w, steps, k, torn);
            && Reckoned(v) == Posted(Reckoned(w), w, DeleteClient(name, cn), o, k, |steps|)
            && Unshared(v.mem)
  {
    hide *;
    var steps := DeleteClientPlan(w, name, cn).steps;
    var u, v := Exec(w, steps[..k]), Crashed(w, steps, k, torn);
    PlanIs(d, w, DeleteClient(name, cn), o);
    StoppedFiles(w, steps, k, torn);
    StoredWritten(d, w);
    if cn in ClientsOf(w.mem, name) {
      var slot := Slot(name, ClientsOf(w.mem, name)[cn].certSerial);
      StoppedMemory(d, w, DeleteClient(name, cn), o, k, torn);
      DeleteStoppedStore(d, w, name, cn, k);
      DropClientReleases(w.mem, name, cn);
      ReleasedSerials(w.mem, DropClient(w.mem, name, cn), {slot});
      forall x: Slot ensures IsRevoked(v, x) <==> IsRevoked(w, x) || (k > 0 && slot.key != "" && x == slot) {
        DeleteStoppedRevoked(d, w, name, cn, k, x);
        SameRevoked(u, v, x);
      }
      DeleteClientPosted(w, v, name, cn, o, k, |steps|);
    } else {
      UnknownDelete(w, name, cn);
      assert steps[..k] == [];
      ExecNone(w);
      SameReckoned(w, v);
      UnknownPosted(w, name, cn, o, k);
    }
  }

  lemma SameRevoked(w: State, v: State, slot: Slot)
    requires v.disk.revoked == w.disk.revoked
    ensures IsRevoked(v, slot) == IsRevoked(w, slot)
  {
  }

  lemma UnknownPosted(w: State, name: string, cn: string, o: Outside, k: nat)
    requires cn !in ClientsOf(w.mem, name)
    ensures Posted(Reckoned(w), w, DeleteClient(name, cn), o, k, 0) == Reckoned(w)
  {
    hide Reckoned;
  }

  lemma DeleteClientPosted(w: State, v: State, name: string, cn: string, o: Outside, k: nat, n: nat)
    requires cn in ClientsOf(w.mem, name) && v.disk.certs == w.disk.certs && k <= n && 0 < n
    requires forall slot :: Stored(w, slot) ==> slot in w.disk.certs
    requires var slot := Slot(name, ClientsOf(w.mem, name)[cn].certSerial);
             && (forall x: Slot :: IsRevoked(v, x) <==> IsRevoked(w, x) || (k > 0 && slot.key != "" && x == slot))
             && Serials(v.mem) == if k < n then Serials(w.mem) else Serials(w.mem) - {slot}
    ensures Reckoned(v) == Posted(Reckoned(w), w, DeleteClient(name, cn), o, k, n)
  {
    hide Serials, IsRevoked;
    HeldSlot(w.mem, name, cn);
  }

  lemma HeldSlot(data: StoreData, name: string, cn: string)
    requires cn in ClientsOf(data, name)
    ensures var serial := ClientsOf(data, name)[cn].certSerial;
            Slot(name, serial) in Serials(data) <==> serial != ""
  {
    var slot := Slot(name, ClientsOf(data, name)[cn].certSerial);
    SerialsIs(data, slot);
    if slot.key != "" {
      assert HeldBy(data, slot, cn);
    }
  }

  // ------------------------------------------------ CreateClient

  lemma FreshUnknown(d: Dirs, w: State, name: string, serial: nat)
    requires Sound(d, w) && Synced(w) && Fresh(w, serial)
    ensures var slot := Slot(name, Numerals.Hex(serial));
            slot !in w.disk.certs && !Stored(w, slot) && !IsRevoked(w, slot) && slot.key != ""
  {
    hide Sound, Synced, Fresh, Numerals.Hex, Stored, IsRevoked;
    var slot := Slot(name, Numerals.Hex(serial));
    FreshSlot(d, w, slot, serial);
    Numerals.HexRoundTrip(serial);
    WrittenFirst(d, w, slot);
  }

  lemma CreateStoppedCerts(d: Dirs, w: State, name: string, req: ClientRequest, o: Outside, k: nat)
    requires k <= |CreateClientPlan(w, name, req, o).steps|
    ensures var steps := CreateClientPlan(w, name, req, o).steps;
            && (Issues(w, name, req) ==> |steps| > 0)
            && Exec(w, steps[..k]).disk.certs.Keys == w.disk.certs.Keys
                + (if Issues(w, name, req) && k > 0 then {Slot(name, Numerals.Hex(o.serial))} else {})
            && Exec(w, steps[..k]).disk.revoked == w.disk.revoked
  {
    hide *;
    var c := CreateClientPlan(w, name, req, o);
    var after := WithNewcomer(w, name, req, o);
    var issue, password, pin := CreateClientParts(w, name, req, o);
    WithNewcomerIs(w, name, req, o);
    AllButHas(InRevoked);
    PartsWithin(issue, {InCerts, Elsewhere}, password, pin, after, AllBut(InRevoked));
    WithinPrefix(c.steps, k, AllBut(InRevoked));
    WithinLeaves(w, c.steps[..k], AllBut(InRevoked));
    RevokedLeft(w, Exec(w, c.steps[..k]));
    if k == 0 {
      assert c.steps[..k] == [];
      ExecNone(w);
    }
    if Issues(w, name, req) {
      IssueFirst(w, name, req, o, issue);
      TailWithin(issue, password, pin, after);
      assert (issue + password)[1..] == issue[1..] + password;
      assert (issue + password + pin + Flush(after))[1..] == issue[1..] + password + pin + Flush(after);
      if k > 0 {
        FirstWrite(w, c.steps, k, InCerts);
        CertsAfter(w, Exec(w, c.steps[..k]), Slot(name, Numerals.Hex(o.serial)), o.cert);
      }
    } else if k > 0 {
      NoneWithin({Elsewhere});
      AllButHas(InCerts);
      PartsWithin(issue, {Elsewhere}, password, pin, after, AllBut(InCerts));
      WithinPrefix(c.steps, k, AllBut(InCerts));
      WithinLeaves(w, c.steps[..k], AllBut(InCerts));
      CertsLeft(w, Exec(w, c.steps[..k]));
    }
  }

  // The store a successful CreateClient commits; the current one for an unknown instance.
  function WithNewcomer(w: State, name: string, req: ClientRequest, o: Outside): StoreData {
    if name in w.mem.instances then PutClient(w.mem, name, Newcomer(w, name, req, o)) else w.mem
  }

  lemma WithNewcomerIs(w: State, name: string, req: ClientRequest, o: Outside)
    ensures name in w.mem.instances ==>
              WithNewcomer(w, name, req, o) == PutClient(w.mem, name, Newcomer(w, name, req, o))
  {
    hide PutClient, Newcomer;
  }

  lemma RevokedLeft(w: State, v: State)
    requires Leaves(w, v, AllBut(InRevoked))
    ensures v.disk.revoked == w.disk.revoked
  {
  }

  lemma IssueFirst(w: State, name: string, req: ClientRequest, o: Outside, issue: seq<Step>)
    requires Issues(w, name, req) && issue == Issue(w.disk, name, o).steps
    ensures |issue| == 3 && issue[0] == WriteCert(Slot(name, Numerals.Hex(o.serial)), o.cert)
    ensures Within(issue[1..], {Elsewhere})
  {
    hide Numerals.Hex, Passes, OrAuth, UsesCert;
  }

  lemma TailWithin(issue: seq<Step>, password: seq<Step>, pin: seq<Step>, after: StoreData)
    requires |issue| > 0 && Within(issue[1..], {Elsewhere})
    requires Within(password, {InPasswords}) && Within(pin, {Elsewhere})
    ensures Within(issue[1..] + password, AllBut(InCerts))
    ensures Within(issue[1..] + password + pin + Flush(after), AllBut(InCerts))
  {
    hide *;
    AllButHas(InCerts);
    PartsWithin(issue[1..], {Elsewhere}, password, pin, after, AllBut(InCerts));
  }

  lemma CertsAfter(w: State, v: State, slot: Slot, pem: string)
    requires Leaves(Apply(w, WriteCert(slot, pem)), v, AllBut(InCerts))
    ensures v.disk.certs.Keys == w.disk.certs.Keys + {slot}
  {
  }

  lemma CreateStoppedStore(w: State, name: string, req: ClientRequest, o: Outside, k: nat)
    requires k <= |CreateClientPlan(w, name, req, o).steps|
    ensures var c := CreateClientPlan(w, name, req, o);
            && (k < |c.steps| || c.error.Some? ==> Exec(w, c.steps[..k]).disk.state == w.disk.state)
            && (c.error.None? ==>
                  && name in w.mem.instances && |c.steps| > 0
                  && Exec(w, c.steps).mem == PutClient(w.mem, name, Newcomer(w, name, req, o)))
  {
    hide *;
    var c := CreateClientPlan(w, name, req, o);
    var issue, password, pin := CreateClientParts(w, name, req, o);
    FilesHas();
    if c.error.None? {
      var after := PutClient(w.mem, name, Newcomer(w, name, req, o));
      PartsWithin(issue, {InCerts, Elsewhere}, password, pin, after, FILES);
      CommitsLast(w, issue + password + pin, after, k);
      FlushNotEmpty(after);
    } else {
      PartsWithin(issue, {InCerts, Elsewhere}, password, pin, w.mem, FILES);
      WithinPrefix(c.steps, k, FILES);
      WithinLeaves(w, c.steps[..k], FILES);
      StoreLeft(w, Exec(w, c.steps[..k]));
    }
  }

  lemma StoreLeft(w: State, v: State)
    requires Leaves(w, v, FILES)
    ensures v.disk.state == w.disk.state
  {
  }

  // Whether CreateClient succeeds, and whether its client then holds a certificate.
  lemma CreateOutcome(w: State, name: string, req: ClientRequest, o: Outside)
    ensures var c := CreateClientPlan(w, name, req, o);
            && (c.error.None? ==>
                  && Passes(w, name, req)
                  && Newcomer(w, name, req, o).certSerial
                     == (if Issues(w, name, req) then Numerals.Hex(o.serial) else "")
                  && Newcomer(w, name, req, o).commonName !in ClientsOf(w.mem, name))
            && (Issues(w, name, req) ==> (c.error.None? <==> Completes(w, name, req, o)))
  {
    hide CreateClientPlan, GoodName, Text.Trim, OrAuth, PinFor, Unpinned, UsesCert, CaLoads, Numerals.Hex, PasswordOk;
    CreateClientSucceedsIff(w, name, req, o);
    UnpinnedIff(req.staticIp);
    if CreateClientPlan(w, name, req, o).error.None? {
      PassesWhenDone(w, name, req, o);
    }
  }

  lemma PassesWhenDone(w: State, name: string, req: ClientRequest, o: Outside)
    requires CreateClientPlan(w, name, req, o).error.None?
    ensures Passes(w, name, req)
  {
    hide CreateClientPlan;
    if !Passes(w, name, req) {
      NotPassing(w, name, req, o);
    }
  }

  lemma CreateClientStopped(d: Dirs, w: State, name: string, req: ClientRequest, o: Outside, k: nat, torn: bool)
    requires Sound(d, w) && Synced(w) && Admissible(w, CreateClient(name, req), o) && Unshared(w.mem)
    requires k <= |CreateClientPlan(w, name, req, o).steps|
    ensures var steps := CreateClientPlan(w, name, req, o).steps;
            var v := Crashed(w, steps, k, torn);
            && Reckoned(v) == Posted(Reckoned(w), w, CreateClient(name, req), o, k, |steps|)
            && Unshared(v.mem)
  {
    hide *;
    var c := CreateClientPlan(w, name, req, o);
    var u, v := Exec(w, c.steps[..k]), Crashed(w, c.steps, k, torn);
    PlanIs(d, w, CreateClient(name, req), o);
    StoppedFiles(w, c.steps, k, torn);
    StoredWritten(d, w);
    FreshSerial(w, name, req, o);
    FreshUnknown(d, w, name, o.serial);
    CreateStoppedCerts(d, w, name, req, o, k);
    CreateStoppedStore(w, name, req, o, k);
    StoppedMemory(d, w, CreateClient(name, req), o, k, torn);
    CreateOutcome(w, name, req, o);
    NotStored(w, Slot(name, Numerals.Hex(o.serial)));
    if c.error.None? && k == |c.steps| {
      NoEmptySlot(w.mem, name);
      NewSerials(w.mem, name, Newcomer(w, name, req, o));
    }
    forall x: Slot ensures IsRevoked(v, x) == IsRevoked(w, x) {
      SameRevoked(w, v, x);
    }
    CreateClientPosted(w, v, name, req, o, k, |c.steps|, c.error.None? && k == |c.steps|);
  }

  lemma FreshSerial(w: State, name: string, req: ClientRequest, o: Outside)
    requires Admissible(w, CreateClient(name, req), o)
    ensures Fresh(w, o.serial)
  {
  }

  lemma NotStored(w: State, slot: Slot)
    ensures !Stored(w, slot) <==> slot !in Serials(w.mem)
  {
    hide Serials;
  }

  lemma NoEmptySlot(data: StoreData, name: string)
    ensures Slot(name, "") !in Serials(data)
  {
  }

  lemma CreateClientPosted(
      w: State, v: State, name: string, req: ClientRequest, o: Outside, k: nat, n: nat, kept: bool)
    requires k <= n && (Issues(w, name, req) ==> n > 0 && (kept <==> k == n && Completes(w, name, req, o)))
    requires forall slot :: Stored(w, slot) ==> slot in w.disk.certs
    requires forall x: Slot :: IsRevoked(v, x) <==> IsRevoked(w, x)
    requires var slot := Slot(name, Numerals.Hex(o.serial));
             && slot !in w.disk.certs && !IsRevoked(w, slot)
             && v.disk.certs.Keys == w.disk.certs.Keys + (if Issues(w, name, req) && k > 0 then {slot} else {})
             && Serials(v.mem) == Serials(w.mem) + (if Issues(w, name, req) && kept then {slot} else {})
    ensures Reckoned(v) == Posted(Reckoned(w), w, CreateClient(name, req), o, k, n)
  {
    hide Serials, IsRevoked, Numerals.Hex, Issues, Completes;
    assert forall x: Slot :: x in v.disk.certs <==> x in v.disk.certs.Keys;
    assert forall x: Slot :: x in w.disk.certs <==> x in w.disk.certs.Keys;
  }

  // ------------------------------------------------ whole runs

  /** Any call, stopped after any number of its steps, leaves the account its request and the state before foretell. */
  lemma StoppedAccount(d: Dirs, w: State, r: Request, o: Outside, k: nat, torn: bool)
    requires Sound(d, w) && Synced(w) && Admissible(w, r, o) && Unshared(w.mem)
    requires k <= |Plan(d, w, r, o).steps|
    ensures var steps := Plan(d, w, r, o).steps;
            var v := Crashed(w, steps, k, torn);
            Reckoned(v) == Posted(Reckoned(w), w, r, o, k, |steps|) && Unshared(v.mem)
  {
    hide Sound, Synced, Admissible, Unshared, Reckoned, Crashed, CreateInstancePlan, PatchInstancePlan,
         DeleteInstancePlan, CreateClientPlan, PatchClientPlan, DeleteClientPlan, Exec, Within, Released, Issues,
         Completes, Belonging, Numerals.Hex;
    match r
    case CreateInstance(req) =>
      CreateInstanceKeeps(d, w, req, o);
      KeepsAccount(d, w, r, o, k, torn);
    case PatchInstance(name, body) =>
      PatchInstanceKeeps(d, w, name, body, o);
      KeepsAccount(d, w, r, o, k, torn);
    case DeleteInstance(name) => DeleteInstanceStopped(d, w, name, o, k, torn);
    case CreateClient(name, req) => CreateClientStopped(d, w, name, req, o, k, torn);
    case PatchClient(name, cn, body) =>
      PatchClientKeeps(d, w, name, cn, body, o);
      KeepsAccount(d, w, r, o, k, torn);
    case DeleteClient(name, cn) => DeleteClientStopped(d, w, name, cn, o, k, torn);
  }

  lemma SameBooks(w: State, v: State)
    requires v.mem == w.mem && v.disk.certs == w.disk.certs && v.disk.revoked == w.disk.revoked
    ensures Reckoned(v) == Reckoned(w) && (Unshared(w.mem) ==> Unshared(v.mem))
  {
    hide Unshared;
    SameReckoned(w, v);
  }

  lemma CallAccount(d: Dirs, w: State, r: Request, o: Outside)
    requires Sound(d, w) && Synced(w) && Admissible(w, r, o) && Unshared(w.mem)
    ensures var steps := Plan(d, w, r, o).steps;
            var v := Exec(w, steps);
            Reckoned(v) == Posted(Reckoned(w), w, r, o, |steps|, |steps|) && Unshared(v.mem)
  {
    hide *;
    var steps := Plan(d, w, r, o).steps;
    StoppedAccount(d, w, r, o, |steps|, false);
    StoppedMemory(d, w, r, o, |steps|, false);
    SameBooks(Crashed(w, steps, |steps|, false), Exec(w, steps));
  }

  lemma ReconcileAccount(d: Dirs, w: State, b: Boot, k: nat)
    requires Synced(w) && k <= |ReconcilePlan(d, w.mem, b, b.order)| && Unshared(w.mem)
    ensures var steps := ReconcilePlan(d, w.mem, b, b.order);
            var v := Crashed(w, steps, k, false);
            Reckoned(v) == Reckoned(w) && Unshared(v.mem)
    ensures Reckoned(Rebooted(d, w, b)) == Reckoned(w) && Unshared(Rebooted(d, w, b).mem)
  {
    hide *;
    var steps := ReconcilePlan(d, w.mem, b, b.order);
    ReconcileQuiet(d, w.mem, b, b.order);
    QuietPrefix(steps, k);
    QuietSafe(d, w, steps[..k], w.mem, {});
    QuietSafe(d, w, steps, w.mem, {});
    StoppedFiles(w, steps, k, false);
    BooksOf(w, Exec(w, steps[..k]));
    BooksOf(w, Exec(w, steps));
    SameBooks(w, Crashed(w, steps, k, false));
    RebootedIs(d, w, b);
    SameBooks(w, Rebooted(d, w, b));
  }

  lemma QuietPrefix(steps: seq<Step>, k: nat)
    requires AllQuiet(steps) && k <= |steps|
    ensures AllQuiet(steps[..k])
  {
    hide Quiet;
  }

  lemma BooksOf(w: State, v: State)
    requires SameFiles(w, v)
    ensures v.mem == w.mem && v.disk.certs == w.disk.certs && v.disk.revoked == w.disk.revoked
    ensures v.disk.state == w.disk.state
  {
  }

  lemma RebootedIs(d: Dirs, w: State, b: Boot)
    ensures Rebooted(d, w, b) == Exec(w, ReconcilePlan(d, w.mem, b, b.order))
  {
    hide Exec, ReconcilePlan;
  }

  lemma NextAccount(d: Dirs, w: State, e: Event)
    requires Sound(d, w) && Synced(w) && Possible(d, w, e) && Unshared(w.mem)
    ensures var v := Next(d, w, e); Reckoned(v) == PostedBy(Reckoned(w), d, w, e) && Unshared(v.mem)
  {
    hide Sound, Admissible, BootAdmissible, Plan, ReconcilePlan, Posted, Reckoned, Unshared, Exec, Crashed, Rebooted;
    match e
    case ApiCall(r, o) => CallAccount(d, w, r, o);
    case CrashInCall(r, o, k, torn) => StoppedAccount(d, w, r, o, k, torn);
    case Reconcile(b) => ReconcileAccount(d, w, b, 0);
    case CrashInReconcile(b, k) => ReconcileAccount(d, w, b, k);
    case Dies(name) => SameBooks(w, Died(w, name));
    case Restart => SameBooks(w, Down(w, w.disk));
  }

  /**
   * In every run, crashes anywhere: which certificates exist, which of them
   * nobody holds although they are valid, and which are held although they are
   * revoked, is what adding up the requests foretells.
   */
  lemma {:induction false} RunAccounted(d: Dirs, w: State, events: seq<Event>)
    requires Sound(d, w) && Synced(w) && Unshared(w.mem) && IsRun(d, w, events)
    ensures Reckoned(After(d, w, events)) == Balance(d, w, events, Reckoned(w))
    ensures Unshared(After(d, w, events).mem)
    decreases |events|
  {
    hide Sound, Synced, Possible, Next, Reckoned, PostedBy, Unshared, Accumulates, AllRevoked, Lost;
    if events != [] {
      NextAccount(d, w, events[0]);
      NextSound(d, w, events[0]);
      RunAccounted(d, Next(d, w, events[0]), events[1..]);
    }
  }

  /** Without crashes no revoked certificate is ever left with a client. */
  lemma {:induction false} NoneLingers(d: Dirs, w: State, events: seq<Event>, a: Account)
    requires IsRun(d, w, events) && CrashFree(events) && a.lingering == {}
    ensures Balance(d, w, events, a).lingering == {}
    decreases |events|
  {
    hide Possible, Next, Plan, Issues, Completes, Belonging;
    if events != [] {
      NoneLingers(d, Next(d, w, events[0]), events[1..], PostedBy(a, d, w, events[0]));
    }
  }

  // ------------------------------------------------ single calls

  /**
   * CreateClient leaves a valid certificate to nobody exactly when it issues one
   * and then the password is missing or refused, the name is no safe file name, or
   * the address is neither blank nor IPv4.
   */
  lemma CreateOrphansIff(d: Dirs, w: State, name: string, req: ClientRequest, o: Outside)
    requires Sound(d, w) && Synced(w) && Unshared(w.mem) && Admissible(w, CreateClient(name, req), o)
    ensures var v := Exec(w, CreateClientPlan(w, name, req, o).steps);
            var slot := Slot(name, Numerals.Hex(o.serial));
            && slot !in Reckoned(w).unowned
            && Reckoned(v).unowned == Reckoned(w).unowned
                + (if Issues(w, name, req) && !Completes(w, name, req, o) then {slot} else {})
  {
    hide Sound, Synced, Unshared, Admissible, Numerals.Hex, Completes, Stored, IsRevoked, Exec, CreateClientPlan,
         Fresh, Issues;
    PlanIs(d, w, CreateClient(name, req), o);
    CallAccount(d, w, CreateClient(name, req), o);
    FreshSerial(w, name, req, o);
    FreshUnknown(d, w, name, o.serial);
    CreateStoppedCerts(d, w, name, req, o, 0);
  }

  /** DeleteInstance leaves to nobody exactly the unrevoked certificates of the instance's clients. */
  lemma DeleteOrphans(d: Dirs, w: State, name: string, o: Outside)
    requires Sound(d, w) && Synced(w) && Unshared(w.mem) && Admissible(w, DeleteInstance(name), o)
    ensures var v := Exec(w, DeleteInstancePlan(w, name).steps);
            Reckoned(v).unowned == Reckoned(w).unowned
              + (set slot | slot in Serials(w.mem) && slot.instance == name && !IsRevoked(w, slot))
  {
    hide Sound, Synced, Unshared, Admissible, Serials, IsRevoked, Exec, DeleteInstancePlan;
    PlanIs(d, w, DeleteInstance(name), o);
    CallAccount(d, w, DeleteInstance(name), o);
  }

}
