/** The calls on clients keep the steady state. */
module SteadyClients {
  import opened Wrappers
  import opened Records
  import opened Config
  import opened World
  import opened Plans
  import opened Durable
  import opened Crash
  import opened Recovery
  import opened SteadyState
  import Numerals
  import Text

  // ------------------------------------------------ storing a client

  // The pin of one slot now says ip; no other pin has moved.
  ghost predicate Repinned(before: map<Slot, string>, after: map<Slot, string>, slot: Slot, ip: string) {
    && PinExact(after, slot, ip)
    && forall other: Slot | other != slot :: SameAt(before, after, other)
  }

  lemma PinResult(u: State, name: string, cn: string, ip: string)
    requires PinCall(name, cn, ip).error.None?
    ensures var v := Exec(u, PinCall(name, cn, ip).steps);
            && v == u.(disk := u.disk.(pins := v.disk.pins))
            && Repinned(u.disk.pins, v.disk.pins, Slot(name, cn), ip)
  {
    hide GoodName, PinFor, Unpinned, Exec;
    var slot := Slot(name, cn);
    if Unpinned(ip) {
      assert PinCall(name, cn, ip).steps == [RemovePin(slot)];
      ExecOne(u, RemovePin(slot));
      Unpin(u.disk.pins, slot, ip);
    } else {
      assert PinCall(name, cn, ip).steps == [WritePin(slot, PinFor(ip).value)];
      ExecOne(u, WritePin(slot, PinFor(ip).value));
      Repin(u.disk.pins, slot, ip);
    }
  }

  lemma Unpin(pins: map<Slot, string>, slot: Slot, ip: string)
    requires Unpinned(ip)
    ensures Repinned(pins, pins - {slot}, slot, ip)
  {
    hide PinFor, Unpinned;
  }

  lemma Repin(pins: map<Slot, string>, slot: Slot, ip: string)
    requires !Unpinned(ip) && PinFor(ip).Some?
    ensures Repinned(pins, pins[slot := PinFor(ip).value], slot, ip)
  {
    hide PinFor, Unpinned;
  }

  // The certificate of c is not revoked and not held by another client.
  predicate FreshSerial(w: State, name: string, c: Client) {
    c.certSerial != "" ==>
      && c.certSerial !in RevokedOf(w.disk, name)
      && forall other | other in ClientsOf(w.mem, name) && other != c.commonName ::
           ClientsOf(w.mem, name)[other].certSerial != c.certSerial
  }

  lemma PutClientSerials(w: State, v: State, name: string, c: Client)
    requires SerialsLive(w) && FreshSerial(w, name, c)
    requires v.mem == PutClient(w.mem, name, c) && v.disk.revoked == w.disk.revoked
    ensures SerialsLive(v)
  {
    forall n, cn | n in v.mem.clients && cn in v.mem.clients[n] ensures SerialLive(v, n, cn) {
      if n != name || cn != c.commonName {
        assert n in w.mem.clients && cn in w.mem.clients[n] && SerialLive(w, n, cn);
      }
    }
  }

  lemma PutClientPins(w: State, v: State, name: string, c: Client)
    requires PinsExact(w)
    requires v.mem == PutClient(w.mem, name, c)
    requires Repinned(w.disk.pins, v.disk.pins, Slot(name, c.commonName), c.staticIp)
    ensures PinsExact(v)
  {
    hide PinFor, Unpinned;
    forall n, cn | n in v.mem.clients && cn in v.mem.clients[n]
      ensures PinExact(v.disk.pins, Slot(n, cn), v.mem.clients[n][cn].staticIp)
    {
      if n != name || cn != c.commonName {
        assert PinExact(w.disk.pins, Slot(n, cn), w.mem.clients[n][cn].staticIp);
        assert SameAt(w.disk.pins, v.disk.pins, Slot(n, cn));
      }
    }
  }

  /** Pinning a client and storing it keeps the steady state. */
  lemma PutClientSteady(d: Dirs, u: State, name: string, c: Client)
    requires ConfExact(d, u) && PinsExact(u) && CrlExact(u) && CaSeeded(u) && SerialsLive(u)
    requires PinCall(name, c.commonName, c.staticIp).error.None? && FreshSerial(u, name, c)
    ensures var steps := PinCall(name, c.commonName, c.staticIp).steps + Flush(PutClient(u.mem, name, c));
            var v := Exec(u, steps);
            ConfExact(d, v) && PinsExact(v) && CrlExact(v) && CaSeeded(v) && SerialsLive(v)
  {
    hide Rendered, PinsExact, SerialsLive, Exec, Flush, PinCall, FreshSerial, Repinned, Numbers;
    var pin := PinCall(name, c.commonName, c.staticIp);
    var after := PutClient(u.mem, name, c);
    var u1 := Exec(u, pin.steps);
    PinResult(u, name, c.commonName, c.staticIp);
    ExecAppend(u, pin.steps, Flush(after));
    FlushResult(u1, after);
    var v := Committed(u1, after);
    PutClientPins(u, v, name, c);
    PutClientSerials(u, v, name, c);
    forall n: string ensures CrlOf(v.disk, n) == Numbers(RevokedOf(v.disk, n)) {
      assert CrlOf(u.disk, n) == Numbers(RevokedOf(u.disk, n));
    }
  }

  // ------------------------------------------------ CreateClient

  lemma IssueSide(disk: Disk, name: string, o: Outside)
    ensures AllSide(Issue(disk, name, o).steps)
    ensures Issue(disk, name, o).error.Some? ==> Issue(disk, name, o).steps == []
  {
  }

  lemma SetPasswordSide(name: string, o: Outside)
    ensures AllSide(SetPassword(name, o).steps)
  {
  }

  lemma PasswordSide(mode: AuthMode, name: string, req: ClientRequest, o: Outside)
    ensures AllSide(PasswordPart(mode, name, req, o).steps)
  {
  }

  lemma PinErrorNoSteps(name: string, cn: string, ip: string)
    ensures PinCall(name, cn, ip).error.Some? ==> PinCall(name, cn, ip).steps == []
  {
  }

  lemma NewSerialFresh(d: Dirs, w: State, name: string, c: Client, serial: nat)
    requires Sound(d, w) && Synced(w) && Fresh(w, serial)
    requires c.certSerial == "" || c.certSerial == Numerals.Hex(serial)
    ensures FreshSerial(w, name, c)
  {
    hide Rendered, GoodName, PinFor, Unpinned, HexKey, CrlWithin, Numerals.Hex;
    if c.certSerial != "" {
      assert Slot(name, c.certSerial) !in w.disk.certs;
      assert Slot(name, c.certSerial) !in w.issued;
      forall other | other in ClientsOf(w.mem, name) && other != c.commonName
        ensures ClientsOf(w.mem, name)[other].certSerial != c.certSerial
      {
        assert GoodClient(w.mem.clients[name][other], w.issued);
      }
    }
  }

  // Two certificate and password parts in front of pinning and storing.
  lemma FrontThenPut(d: Dirs, w: State, front: seq<Step>, name: string, c: Client)
    requires Steady(d, w) && AllSide(front) && FreshSerial(w, name, c)
    ensures var pin := PinCall(name, c.commonName, c.staticIp);
            var steps := front + (if pin.error.None? then pin.steps + Flush(PutClient(w.mem, name, c)) else []);
            var v := Exec(w, steps);
            ConfExact(d, v) && PinsExact(v) && CrlExact(v) && CaSeeded(v) && SerialsLive(v)
  {
    hide *;
    SteadyParts(d, w);
    SideKeepsCore(w, front);
    var u := Exec(w, front);
    SameCoreSteady(d, w, u);
    CoreFresh(w, u, name, c);
    var pin := PinCall(name, c.commonName, c.staticIp);
    if pin.error.None? {
      ExecAppend(w, front, pin.steps + Flush(PutClient(w.mem, name, c)));
      PutClientSteady(d, u, name, c);
    } else {
      assert front + [] == front;
    }
  }

  lemma CoreFresh(w: State, u: State, name: string, c: Client)
    requires SameCore(w, u)
    ensures u.mem == w.mem && FreshSerial(u, name, c) == FreshSerial(w, name, c)
  {
  }

  /** A create call on a client, failed at whatever point or not, keeps the steady state. */
  lemma CreateClientSteady(d: Dirs, w: State, name: string, req: ClientRequest, o: Outside)
    requires Steady(d, w) && Fresh(w, o.serial)
    ensures var v := Exec(w, CreateClientPlan(w, name, req, o).steps);
            ConfExact(d, v) && PinsExact(v) && CrlExact(v) && CaSeeded(v) && SerialsLive(v)
  {
    hide Exec, Sound, Synced, ConfExact, PinsExact, CrlExact, CaSeeded, SerialsLive, Issue, PasswordPart, PinCall,
         Flush, PutClient, Fresh, Numerals.Hex, Side;
    var plan := CreateClientPlan(w, name, req, o);
    var cn := Text.Trim(req.commonName);
    ExecNone(w);
    if name in w.mem.instances && cn != "" && cn !in ClientsOf(w.mem, name) {
      var mode := OrAuth(req.authMode, w.mem.instances[name].authMode);
      var issue := if UsesCert(mode) then Issue(w.disk, name, o) else Nothing;
      var password := PasswordPart(mode, name, req, o);
      var pin := PinCall(name, cn, req.staticIp);
      var c := NewClient(name, cn, mode, req, o);
      var after := PutClient(w.mem, name, c);
      IssueSide(w.disk, name, o);
      PasswordSide(mode, name, req, o);
      PinErrorNoSteps(name, cn, req.staticIp);
      NewSerialFresh(d, w, name, c, o.serial);
      var front := issue.steps + (if issue.error.None? then password.steps else []);
      if issue.error.None? && password.error.None? {
        FrontThenPut(d, w, front, name, c);
        assert plan.steps == front + (if pin.error.None? then pin.steps + Flush(after) else []);
      } else {
        SideKeepsCore(w, front);
        SameCoreSteady(d, w, Exec(w, front));
        assert plan.steps == front;
      }
    }
  }

  // ------------------------------------------------ PatchClient

  lemma PatchedSerialFresh(w: State, name: string, cn: string, c: Client)
    requires SerialsLive(w) && cn in ClientsOf(w.mem, name)
    requires c.commonName == cn && c.certSerial == ClientsOf(w.mem, name)[cn].certSerial
    ensures FreshSerial(w, name, c)
  {
    assert SerialLive(w, name, cn);
  }

  lemma PatchedClientKeeps(c: Client, body: Body)
    ensures PatchedClient(c, body).commonName == c.commonName && PatchedClient(c, body).certSerial == c.certSerial
  {
  }

  lemma StoredName(d: Dirs, w: State, name: string, cn: string)
    requires Sound(d, w) && Synced(w) && cn in ClientsOf(w.mem, name)
    ensures name in w.mem.instances && name in w.mem.clients
    ensures ClientsOf(w.mem, name)[cn].commonName == cn
    ensures ClientsOf(w.mem, name)[cn].certSerial != "" ==>
        Slot(name, ClientsOf(w.mem, name)[cn].certSerial) in w.issued
    ensures GoodName(cn)
  {
    hide Rendered, GoodName, PinFor, Unpinned, IssuedKept, RevokedIssued, CrlWithin;
  }

  function PatchPassword(name: string, c: Client, body: Body, o: Outside): Call {
    if NewPassword(body) != "" && UsesPassword(c.authMode) then SetPassword(name, o) else Nothing
  }

  lemma PatchClientParts(w: State, name: string, cn: string, body: Body, o: Outside)
    requires cn in ClientsOf(w.mem, name) && ClientsOf(w.mem, name)[cn].commonName == cn && name in w.mem.instances
    ensures var c := PatchedClient(ClientsOf(w.mem, name)[cn], body);
            var password := PatchPassword(name, c, body, o);
            var pin := PinCall(name, c.commonName, c.staticIp);
            var steps := PatchClientPlan(w, name, cn, body, o).steps;
            && AllSide(password.steps)
            && if password.error.Some? then steps == password.steps
               else steps == password.steps + (if pin.error.None? then pin.steps + Flush(PutClient(w.mem, name, c))
                   else [])
  {
    hide PinCall, Flush, PutClient, NewPassword, Side, SetPassword, UsesPassword;
    PatchedClientKeeps(ClientsOf(w.mem, name)[cn], body);
    hide PatchedClient;
    var c := PatchedClient(ClientsOf(w.mem, name)[cn], body);
    SetPasswordSide(name, o);
    PinErrorNoSteps(name, cn, c.staticIp);
  }

  // Only certificates and passwords were touched.
  lemma SideSteady(d: Dirs, w: State, side: seq<Step>)
    requires Steady(d, w) && AllSide(side)
    ensures var v := Exec(w, side); ConfExact(d, v) && PinsExact(v) && CrlExact(v) && CaSeeded(v) && SerialsLive(v)
  {
    hide *;
    SteadyParts(d, w);
    SideKeepsCore(w, side);
    SameCoreSteady(d, w, Exec(w, side));
  }

  /** A patch of a client, failed or not, keeps the steady state. */
  lemma PatchClientSteady(d: Dirs, w: State, name: string, cn: string, body: Body, o: Outside)
    requires Steady(d, w)
    ensures var v := Exec(w, PatchClientPlan(w, name, cn, body, o).steps);
            ConfExact(d, v) && PinsExact(v) && CrlExact(v) && CaSeeded(v) && SerialsLive(v)
  {
    hide *;
    SteadyParts(d, w);
    if cn in ClientsOf(w.mem, name) {
      var c := PatchedClient(ClientsOf(w.mem, name)[cn], body);
      StoredName(d, w, name, cn);
      PatchedClientKeeps(ClientsOf(w.mem, name)[cn], body);
      PatchedSerialFresh(w, name, cn, c);
      PatchClientParts(w, name, cn, body, o);
      var password := PatchPassword(name, c, body, o);
      if password.error.Some? {
        SideSteady(d, w, password.steps);
      } else {
        FrontThenPut(d, w, password.steps, name, c);
      }
    } else {
      UnknownPatch(w, name, cn, body, o);
      ExecNone(w);
    }
  }

  // ------------------------------------------------ DeleteClient

  // The certificate is revoked and a live process has re-read the CRL.
  function AfterRevoke(w: State, name: string, serial: string): State {
    var grown := RevokedOf(w.disk, name) + {serial};
    Reloaded(w.(disk := w.disk.(revoked := w.disk.revoked[name := grown], crl := w.disk.crl[name := Numbers(grown)])),
        name)
  }

  lemma RevokeResult(d: Dirs, w: State, name: string, serial: string)
    requires Slot(name, serial) in w.issued && IssuedKept(w.disk, w.issued)
    requires serial !in RevokedOf(w.disk, name)
    ensures var c := Then(Revoke(w.disk, name, serial), Call([Hangup(name)], None));
            c.error.None? && Exec(w, c.steps) == AfterRevoke(w, name, serial)
  {
    hide *;
    var grown := RevokedOf(w.disk, name) + {serial};
    IssuedHasCa(w, Slot(name, serial));
    RevokeSteps(w.disk, name, serial);
    var a, b, c := WriteRevoked(name, grown), WriteCrl(name, Numbers(grown)), Hangup(name);
    assert [a] + [b] + [c] == [a, b, c];
    ExecThree(w, a, b, c);
    ApplyRevoke(w, name, serial);
  }

  lemma IssuedHasCa(w: State, slot: Slot)
    requires slot in w.issued && IssuedKept(w.disk, w.issued)
    ensures CaLoads(w.disk, slot.instance)
  {
    hide HexKey;
  }

  lemma RevokeSteps(disk: Disk, name: string, serial: string)
    requires CaLoads(disk, name) && serial !in RevokedOf(disk, name)
    ensures var grown := RevokedOf(disk, name) + {serial};
            Then(Revoke(disk, name, serial), Call([Hangup(name)], None))
            == Call([WriteRevoked(name, grown)] + [WriteCrl(name, Numbers(grown))] + [Hangup(name)], None)
  {
    hide Numbers;
  }

  lemma ApplyRevoke(w: State, name: string, serial: string)
    ensures var grown := RevokedOf(w.disk, name) + {serial};
            Apply(Apply(Apply(w, WriteRevoked(name, grown)), WriteCrl(name, Numbers(grown))), Hangup(name))
            == AfterRevoke(w, name, serial)
  {
    hide Numbers, Reloaded;
  }

  ghost predicate OthersLive(w: State, name: string, cn: string) {
    forall n, x | n in w.mem.clients && x in w.mem.clients[n] && (n != name || x != cn) :: SerialLive(w, n, x)
  }

  lemma AfterRevokeSteady(d: Dirs, w: State, name: string, cn: string)
    requires ConfExact(d, w) && PinsExact(w) && CrlExact(w) && CaSeeded(w) && SerialsLive(w)
    requires name in w.mem.clients && cn in w.mem.clients[name] && name in w.mem.instances
    requires w.mem.clients[name][cn].certSerial != ""
    ensures var v := AfterRevoke(w, name, w.mem.clients[name][cn].certSerial);
            && v.mem == w.mem
            && ConfExact(d, v) && PinsExact(v) && CrlExact(v) && CaSeeded(v) && OthersLive(v, name, cn)
  {
    hide Rendered, Bound, PinExact, Numbers, SerialsLive, OthersLive;
    var serial := w.mem.clients[name][cn].certSerial;
    var v := AfterRevoke(w, name, serial);
    forall n: string ensures CrlOf(v.disk, n) == Numbers(RevokedOf(v.disk, n)) {
      assert CrlOf(w.disk, n) == Numbers(RevokedOf(w.disk, n));
    }
    AfterRevokeSerials(w, name, cn);
  }

  lemma AfterRevokeSerials(w: State, name: string, cn: string)
    requires SerialsLive(w)
    requires name in w.mem.clients && cn in w.mem.clients[name] && w.mem.clients[name][cn].certSerial != ""
    ensures OthersLive(AfterRevoke(w, name, w.mem.clients[name][cn].certSerial), name, cn)
  {
    hide Bound, Numbers;
    var v := AfterRevoke(w, name, w.mem.clients[name][cn].certSerial);
    forall n, x | n in v.mem.clients && x in v.mem.clients[n] && (n != name || x != cn) ensures SerialLive(v, n, x) {
      assert SerialLive(w, n, x) && SerialLive(w, name, cn);
    }
  }

  lemma SerialsAreOthersLive(w: State, name: string, cn: string)
    requires SerialsLive(w)
    ensures OthersLive(w, name, cn)
  {
    hide SerialLive;
  }

  function AfterDrop(u: State, name: string, cn: string): State {
    Committed(u.(disk := u.disk.(pins := u.disk.pins - {Slot(name, cn)})), DropClient(u.mem, name, cn))
  }

  lemma AfterDropParts(u: State, name: string, cn: string)
    ensures var v := AfterDrop(u, name, cn);
            && v.mem.instances == u.mem.instances
            && v.disk.conf == u.disk.conf && v.disk.crl == u.disk.crl && v.disk.revoked == u.disk.revoked
            && v.disk.caCert == u.disk.caCert && v.disk.caKey == u.disk.caKey
            && v.disk.pins == u.disk.pins - {Slot(name, cn)}
            && (forall n, x | n in v.mem.clients && x in v.mem.clients[n] ::
                  && (n != name || x != cn)
                  && n in u.mem.clients && x in u.mem.clients[n] && v.mem.clients[n][x] == u.mem.clients[n][x])
  {
  }

  lemma AfterDropSerials(u: State, v: State, name: string, cn: string)
    requires OthersLive(u, name, cn) && v.disk.revoked == u.disk.revoked
    requires forall n, x | n in v.mem.clients && x in v.mem.clients[n] ::
               && (n != name || x != cn)
               && n in u.mem.clients && x in u.mem.clients[n] && v.mem.clients[n][x] == u.mem.clients[n][x]
    ensures SerialsLive(v)
  {
    forall n, x | n in v.mem.clients && x in v.mem.clients[n] ensures SerialLive(v, n, x) {
      assert SerialLive(u, n, x);
    }
  }

  lemma AfterDropPins(u: State, v: State, name: string, cn: string)
    requires PinsExact(u) && v.disk.pins == u.disk.pins - {Slot(name, cn)}
    requires forall n, x | n in v.mem.clients && x in v.mem.clients[n] ::
               && (n != name || x != cn)
               && n in u.mem.clients && x in u.mem.clients[n] && v.mem.clients[n][x] == u.mem.clients[n][x]
    ensures PinsExact(v)
  {
    hide PinFor, Unpinned;
    forall n, x | n in v.mem.clients && x in v.mem.clients[n]
      ensures PinExact(v.disk.pins, Slot(n, x), v.mem.clients[n][x].staticIp)
    {
      assert PinExact(u.disk.pins, Slot(n, x), u.mem.clients[n][x].staticIp);
    }
  }

  lemma DropClientSteady(d: Dirs, u: State, name: string, cn: string)
    requires ConfExact(d, u) && PinsExact(u) && CrlExact(u) && CaSeeded(u) && OthersLive(u, name, cn)
    ensures var v := AfterDrop(u, name, cn);
            ConfExact(d, v) && PinsExact(v) && CrlExact(v) && CaSeeded(v) && SerialsLive(v)
  {
    hide Rendered, Numbers, PinsExact, SerialsLive, OthersLive, AfterDrop;
    var v := AfterDrop(u, name, cn);
    AfterDropParts(u, name, cn);
    AfterDropSerials(u, v, name, cn);
    AfterDropPins(u, v, name, cn);
    forall n: string ensures CrlOf(v.disk, n) == Numbers(RevokedOf(v.disk, n)) {
      assert CrlOf(u.disk, n) == Numbers(RevokedOf(u.disk, n));
    }
  }

  lemma DropSteps(u: State, side: seq<Step>, name: string, cn: string)
    requires AllSide(side) && GoodName(cn)
    ensures var steps := side + (if GoodName(cn) then [RemovePin(Slot(name, cn))] else [])
        + Flush(DropClient(u.mem, name, cn));
            Exec(u, steps) == AfterDrop(Exec(u, side), name, cn)
  {
    hide GoodName, Flush, Exec, Side, Committed, DropClient;
    var after := DropClient(u.mem, name, cn);
    var u1 := Exec(u, side);
    SideKeepsCore(u, side);
    var s := RemovePin(Slot(name, cn));
    ExecAppend(u, side, [s]);
    ExecOne(u1, s);
    ExecAppend(u, side + [s], Flush(after));
    FlushResult(Apply(u1, s), after);
  }

  lemma DeletePasswordSide(disk: Disk, name: string, cn: string)
    ensures AllSide(DeletePassword(disk, name, cn))
  {
  }

  lemma SameCoreOthersLive(w: State, v: State, name: string, cn: string)
    requires SameCore(w, v) && OthersLive(w, name, cn)
    ensures OthersLive(v, name, cn)
  {
    forall n, x | n in v.mem.clients && x in v.mem.clients[n] && (n != name || x != cn) ensures SerialLive(v, n, x) {
      assert SerialLive(w, n, x);
    }
  }

  lemma SideThenDrop(d: Dirs, u: State, side: seq<Step>, name: string, cn: string)
    requires AllSide(side) && GoodName(cn)
    requires ConfExact(d, u) && PinsExact(u) && CrlExact(u) && CaSeeded(u) && OthersLive(u, name, cn)
    ensures var v := Exec(u, side + (if GoodName(cn) then [RemovePin(Slot(name, cn))] else [])
                             + Flush(DropClient(u.mem, name, cn)));
            ConfExact(d, v) && PinsExact(v) && CrlExact(v) && CaSeeded(v) && SerialsLive(v)
  {
    hide Exec, GoodName, Flush, DropClient, PinsExact, CrlExact, OthersLive, Side, AfterDrop, SerialsLive, Rendered;
    var u1 := Exec(u, side);
    SideKeepsCore(u, side);
    SameCoreCrlPins(u, u1);
    SameCoreOthersLive(u, u1, name, cn);
    DropSteps(u, side, name, cn);
    DropClientSteady(d, u1, name, cn);
  }

  lemma SameCoreCrlPins(w: State, v: State)
    requires SameCore(w, v) && PinsExact(w) && CrlExact(w)
    ensures PinsExact(v) && CrlExact(v)
  {
    hide PinExact, Numbers;
    forall n: string ensures CrlOf(v.disk, n) == Numbers(RevokedOf(v.disk, n)) {
      assert CrlOf(w.disk, n) == Numbers(RevokedOf(w.disk, n));
    }
  }

  /** Deleting a client keeps the steady state: revoked, reloaded, unpinned, forgotten. */
  lemma DeleteClientSteady(d: Dirs, w: State, name: string, cn: string)
    requires Steady(d, w)
    ensures var v := Exec(w, DeleteClientPlan(w, name, cn).steps);
            ConfExact(d, v) && PinsExact(v) && CrlExact(v) && CaSeeded(v) && SerialsLive(v)
  {
    hide Exec, ConfExact, PinsExact, CrlExact, CaSeeded, SerialsLive, OthersLive, GoodName, Flush, DropClient,
         DeletePassword, Revoke, AfterRevoke, GoodData, Side;
    ExecNone(w);
    if cn in ClientsOf(w.mem, name) {
      var c := ClientsOf(w.mem, name)[cn];
      var plan := DeleteClientPlan(w, name, cn);
      var side := if UsesPassword(c.authMode) then DeletePassword(w.disk, name, cn) else [];
      var tail := side + (if GoodName(cn) then [RemovePin(Slot(name, cn))] else [])
          + Flush(DropClient(w.mem, name, cn));
      StoredName(d, w, name, cn);
      DeletePasswordSide(w.disk, name, cn);
      SerialsAreOthersLive(w, name, cn);
      if c.certSerial != "" {
        var revoke := Then(Revoke(w.disk, name, c.certSerial), Call([Hangup(name)], None));
        NotYetRevoked(w, name, cn);
        RevokeResult(d, w, name, c.certSerial);
        AfterRevokeSteady(d, w, name, cn);
        SideThenDrop(d, AfterRevoke(w, name, c.certSerial), side, name, cn);
        ExecAppend(w, revoke.steps, tail);
        assert plan.steps == revoke.steps + tail;
      } else {
        SideThenDrop(d, w, side, name, cn);
        assert plan.steps == tail;
      }
    }
  }

  lemma NotYetRevoked(w: State, name: string, cn: string)
    requires SerialsLive(w) && cn in ClientsOf(w.mem, name)
    ensures var serial := ClientsOf(w.mem, name)[cn].certSerial; serial != "" ==> serial !in RevokedOf(w.disk, name)
  {
    assert SerialLive(w, name, cn);
  }
}
