/** The daemon may die between any two durable writes: every call is safe at every prefix of its steps. */
module Crash {
  import opened Wrappers
  import opened Records
  import opened Config
  import opened World
  import opened Plans
  import opened Durable
  import Numerals
  import Text

  // The certificates named by a store.
  function Serials(data: StoreData): set<Slot> {
    set n, cn | n in data.clients && cn in data.clients[n] && data.clients[n][cn].certSerial != "" ::
      Slot(n, data.clients[n][cn].certSerial)
  }

  // What a deletion of a client takes out of the store.
  function Lost(r: Request, before: StoreData, after: StoreData): set<Slot> {
    if r.DeleteClient? then Serials(before) - Serials(after) else {}
  }

  predicate Synced(w: State) {
    w.mem == Open(w.disk)
  }

  // ------------------------------------------------ the stores the calls commit

  lemma PutInstanceGood(d: Dirs, data: StoreData, rec: Instance, issued: map<Slot, string>)
    requires GoodData(d, data, issued) && Rendered(d, rec).Some?
    ensures GoodData(d, PutInstance(data, rec), issued)
  {
    hide Rendered, GoodClient;
    var post := PutInstance(data, rec);
    forall n, cn | n in post.clients && cn in post.clients[n]
      ensures n in data.clients && cn in data.clients[n] && post.clients[n][cn] == data.clients[n][cn]
    {
    }
  }

  lemma DropInstanceGood(d: Dirs, data: StoreData, name: string, issued: map<Slot, string>)
    requires GoodData(d, data, issued)
    ensures GoodData(d, DropInstance(data, name), issued)
  {
    hide Rendered, GoodClient;
  }

  lemma PutClientGood(d: Dirs, data: StoreData, name: string, c: Client, issued: map<Slot, string>)
    requires GoodData(d, data, issued) && name in data.instances
    requires GoodClient(c, issued) && c.instanceName == name
    ensures GoodData(d, PutClient(data, name, c), issued)
  {
    hide Rendered, GoodClient;
    var post := PutClient(data, name, c);
    forall n, cn | n in post.clients && cn in post.clients[n]
      ensures GoodClient(post.clients[n][cn], issued)
      ensures post.clients[n][cn].commonName == cn && post.clients[n][cn].instanceName == n
    {
      if n != name || cn != c.commonName {
        assert n in data.clients && cn in data.clients[n];
      }
    }
    assert post.clients.Keys == data.clients.Keys;
  }

  lemma DropClientGood(d: Dirs, data: StoreData, name: string, cn: string, issued: map<Slot, string>)
    requires GoodData(d, data, issued)
    ensures GoodData(d, DropClient(data, name, cn), issued)
  {
    hide Rendered, GoodClient;
    var post := DropClient(data, name, cn);
    assert post.clients.Keys == data.clients.Keys;
    forall n, c | n in post.clients && c in post.clients[n]
      ensures n in data.clients && c in data.clients[n] && post.clients[n][c] == data.clients[n][c]
    {
    }
  }

  // ------------------------------------------------ runs of steps

  lemma QuietFlushQuiet(
      d: Dirs, w: State, a: seq<Step>, post: StoreData, b: seq<Step>, lost: set<Slot>)
    requires AllQuiet(a) && AllQuiet(b)
    requires GoodData(d, post, w.issued) && AllRevoked(w.disk, lost)
    ensures SafePlan(d, w, a + Flush(post) + b, post, lost)
    ensures Exec(w, a + Flush(post) + b).mem == post
    ensures Synced(Exec(w, a + Flush(post) + b))
  {
    hide GoodData, SafePlan, Exec, Quiet;
    var w1 := Exec(w, a);
    var w2 := Exec(w1, Flush(post));
    QuietSafe(d, w, a, post, lost);
    FlushSafe(d, w1, post, lost);
    QuietSafe(d, w2, b, post, lost);
    SafeAppend(d, w, a, Flush(post), post, lost);
    ExecAppend(w, a, Flush(post));
    SafeAppend(d, w, a + Flush(post), b, post, lost);
    ExecAppend(w, a + Flush(post), b);
  }

  // A plan that commits nothing is safe whatever it was about to commit.
  lemma QuietOnly(d: Dirs, w: State, steps: seq<Step>, lost: set<Slot>)
    requires AllQuiet(steps)
    ensures Exec(w, steps).mem == w.mem
    ensures SafePlan(d, w, steps, Exec(w, steps).mem, lost)
    ensures Synced(w) ==> Synced(Exec(w, steps))
  {
    QuietSafe(d, w, steps, w.mem, lost);
  }

  // ------------------------------------------------ certificates

  lemma CaStepsOk(d: Dirs, w: State, name: string, o: Outside, post: StoreData, lost: set<Slot>)
    requires forall slot | slot in w.issued :: slot.instance != name
    ensures var a, b, c := WriteCaCert(name, o.caCert), WriteCaKey(name, o.caKey), WriteCrl(name, {});
            && StepOk(d, w, a, post, lost) && StepOk(d, Apply(w, a), b, post, lost)
            && StepOk(d, Apply(Apply(w, a), b), c, post, lost)
            && var v := Apply(Apply(Apply(w, a), b), c);
               && v.mem == w.mem && v.issued == w.issued && v.disk.revoked == w.disk.revoked
               && v.disk.state == w.disk.state
  {
    hide GoodData, Numbers, Started, Stopped, Reloaded;
  }

  lemma EnsureCaSafe(d: Dirs, w: State, name: string, o: Outside, post: StoreData, lost: set<Slot>)
    requires Sound(d, w)
    ensures SafePlan(d, w, EnsureCa(w.disk, name, o), post, lost)
    ensures var v := Exec(w, EnsureCa(w.disk, name, o));
            && v.mem == w.mem && v.issued == w.issued && v.disk.revoked == w.disk.revoked
            && v.disk.state == w.disk.state
  {
    hide GoodData, RevokedIssued, CrlWithin, SafePlan, Exec, HexKey, Apply, StepOk;
    if CaLoads(w.disk, name) {
      ExecNone(w);
      SafeNone(d, w, post, lost);
    } else {
      assert forall slot | slot in w.issued :: slot.instance != name;
      var a, b, c := WriteCaCert(name, o.caCert), WriteCaKey(name, o.caKey), WriteCrl(name, {});
      CaStepsOk(d, w, name, o, post, lost);
      SafeThree(d, w, a, b, c, post, lost);
      ExecThree(w, a, b, c);
    }
  }

  lemma SafeNone(d: Dirs, w: State, post: StoreData, lost: set<Slot>)
    ensures SafePlan(d, w, [], post, lost)
  {
  }

  lemma FreshSlot(d: Dirs, w: State, slot: Slot, serial: nat)
    requires Sound(d, w) && Fresh(w, serial) && slot.key == Numerals.Hex(serial)
    ensures slot !in w.disk.certs && slot !in w.issued && HexKey(slot.key)
  {
    hide GoodData, RevokedIssued, CrlWithin, Numerals.Hex;
  }

  lemma IssueStepsOk(d: Dirs, w: State, slot: Slot, o: Outside, post: StoreData, lost: set<Slot>)
    requires CaLoads(w.disk, slot.instance) && slot !in w.issued && HexKey(slot.key)
    ensures var a, b := WriteCert(slot, o.cert), WriteKey(slot, o.key);
            var c := NoteIssued(slot, o.cert + o.key + w.disk.caCert[slot.instance]);
            && StepOk(d, w, a, post, lost) && StepOk(d, Apply(w, a), b, post, lost)
            && StepOk(d, Apply(Apply(w, a), b), c, post, lost)
            && Apply(Apply(Apply(w, a), b), c) == w.(
                 disk := w.disk.(certs := w.disk.certs[slot := o.cert], keys := w.disk.keys[slot := o.key]),
                 issued := w.issued[slot := c.bundle])
  {
    hide GoodData, HexKey, Started, Stopped, Reloaded;
  }

  lemma IssueSafe(d: Dirs, w: State, name: string, o: Outside, post: StoreData, lost: set<Slot>)
    requires Sound(d, w) && Fresh(w, o.serial)
    ensures SafePlan(d, w, Issue(w.disk, name, o).steps, post, lost)
    ensures Issue(w.disk, name, o).error.None? ==>
              var slot := Slot(name, Numerals.Hex(o.serial));
              && CaLoads(w.disk, name)
              && Exec(w, Issue(w.disk, name, o).steps) == w.(
                   disk := w.disk.(certs := w.disk.certs[slot := o.cert], keys := w.disk.keys[slot := o.key]),
                   issued := w.issued[slot := o.cert + o.key + w.disk.caCert[name]])
    ensures Issue(w.disk, name, o).error.Some? ==> Issue(w.disk, name, o).steps == []
  {
    hide Sound, SafePlan, Exec, Fresh, Numerals.Hex, Apply, StepOk;
    if CaLoads(w.disk, name) {
      var slot := Slot(name, Numerals.Hex(o.serial));
      FreshSlot(d, w, slot, o.serial);
      var a, b := WriteCert(slot, o.cert), WriteKey(slot, o.key);
      var c := NoteIssued(slot, o.cert + o.key + w.disk.caCert[name]);
      IssueStepsOk(d, w, slot, o, post, lost);
      SafeThree(d, w, a, b, c, post, lost);
      ExecThree(w, a, b, c);
    } else {
      SafeNone(d, w, post, lost);
    }
  }

  lemma RevokeSafe(d: Dirs, w: State, name: string, serial: string, post: StoreData, lost: set<Slot>)
    requires Sound(d, w) && Slot(name, serial) in w.issued
    ensures Revoke(w.disk, name, serial).error.None?
    ensures SafePlan(d, w, Revoke(w.disk, name, serial).steps, post, lost)
    ensures var v := Exec(w, Revoke(w.disk, name, serial).steps);
            && v == w.(disk := w.disk.(revoked := v.disk.revoked, crl := v.disk.crl))
            && RevokedOf(v.disk, name) == RevokedOf(w.disk, name) + {serial}
  {
    hide GoodData, CrlWithin, Numbers, SafePlan, Exec, Started, Stopped, Reloaded;
    if serial in RevokedOf(w.disk, name) {
      SafeNone(d, w, post, lost);
      ExecNone(w);
      assert RevokedOf(w.disk, name) + {serial} == RevokedOf(w.disk, name);
    } else {
      var grown := RevokedOf(w.disk, name) + {serial};
      SafeTwo(d, w, WriteRevoked(name, grown), WriteCrl(name, Numbers(grown)), post, lost);
      ExecTwo(w, WriteRevoked(name, grown), WriteCrl(name, Numbers(grown)));
    }
  }

  // ------------------------------------------------ the calls

  lemma PrepareQuiet(d: Dirs, w: State, rec: Instance, o: Outside)
    ensures AllQuiet(Prepare(d, w, rec, o).steps)
    ensures Prepare(d, w, rec, o).error.None? ==> Rendered(d, rec).Some?
  {
    hide WriteConfig, Rendered, HostOnly, Ascii;
    StartQuiet(d, w.mem, rec, o.firstOrder, o.starts, false);
    RenderedConfig(d, w.mem, rec, o.firstOrder);
  }

  lemma CreateInstanceSafe(d: Dirs, w: State, req: InstanceRequest, o: Outside)
    requires Sound(d, w) && Synced(w)
    ensures var steps := CreateInstancePlan(d, w, req, o).steps;
            SafePlan(d, w, steps, Exec(w, steps).mem, {}) && Synced(Exec(w, steps))
  {
    hide GoodData, Rendered, SafePlan, Exec, Quiet, EnsureCa, Prepare, StartInstance;
    var rec := NewInstance(req);
    var plan := CreateInstancePlan(d, w, req, o);
    if rec.name != "" && rec.name !in w.mem.instances && rec.poolCidr != "" {
      var after := PutInstance(w.mem, rec);
      var ca := if UsesCert(rec.authMode) || req.createCaIfEmpty then EnsureCa(w.disk, rec.name, o) else [];
      var prepare := Prepare(d, w, rec, o);
      var start := if rec.enabled then
                     StartInstance(d, after, rec, o.secondOrder, o.starts, Alive(w, rec.name)).steps
                   else [];
      PrepareQuiet(d, w, rec, o);
      StartQuiet(d, after, rec, o.secondOrder, o.starts, Alive(w, rec.name));
      CreateInstanceSteps(d, w, rec, o, ca, prepare, start);
      assert plan == Then(Then(Call(ca, None), prepare), Call(Flush(after) + start, None));
    } else {
      QuietOnly(d, w, plan.steps, {});
    }
  }

  lemma CreateInstanceSteps(
      d: Dirs, w: State, rec: Instance, o: Outside, ca: seq<Step>, prepare: Call, start: seq<Step>)
    requires Sound(d, w) && Synced(w)
    requires ca == EnsureCa(w.disk, rec.name, o) || ca == []
    requires prepare.error.None? ==> Rendered(d, rec).Some?
    requires AllQuiet(prepare.steps) && AllQuiet(start)
    ensures var steps := Then(Then(Call(ca, None), prepare), Call(Flush(PutInstance(w.mem, rec)) + start, None)).steps;
            SafePlan(d, w, steps, Exec(w, steps).mem, {}) && Synced(Exec(w, steps))
  {
    hide GoodData, Rendered, SafePlan, Exec, Quiet, EnsureCa, Flush;
    var after := PutInstance(w.mem, rec);
    var post := if prepare.error.None? then after else w.mem;
    var steps := Then(Then(Call(ca, None), prepare), Call(Flush(after) + start, None)).steps;
    var w1 := Exec(w, ca);
    CaPart(d, w, rec.name, o, ca, post);
    if prepare.error.None? {
      PutInstanceGood(d, w.mem, rec, w.issued);
      QuietFlushQuiet(d, w1, prepare.steps, after, start, {});
      SafeAppend(d, w, ca, prepare.steps + Flush(after) + start, post, {});
      ExecAppend(w, ca, prepare.steps + Flush(after) + start);
      assert steps == ca + (prepare.steps + Flush(after) + start);
    } else {
      QuietOnly(d, w1, prepare.steps, {});
      SafeAppend(d, w, ca, prepare.steps, post, {});
      ExecAppend(w, ca, prepare.steps);
      assert steps == ca + prepare.steps;
    }
  }

  lemma CaPart(d: Dirs, w: State, name: string, o: Outside, ca: seq<Step>, post: StoreData)
    requires Sound(d, w)
    requires ca == EnsureCa(w.disk, name, o) || ca == []
    ensures SafePlan(d, w, ca, post, {})
    ensures Exec(w, ca).mem == w.mem && Exec(w, ca).issued == w.issued && Synced(w) == Synced(Exec(w, ca))
  {
    EnsureCaSafe(d, w, name, o, post, {});
  }

  lemma PatchInstanceSafe(d: Dirs, w: State, name: string, body: Body, o: Outside)
    requires Sound(d, w) && Synced(w)
    ensures var steps := PatchInstancePlan(d, w, name, body, o).steps;
            SafePlan(d, w, steps, Exec(w, steps).mem, {}) && Synced(Exec(w, steps))
  {
    hide GoodData, Rendered, SafePlan, Exec, Patched, ListenersDiffer, WriteConfig, StartInstance;
    var plan := PatchInstancePlan(d, w, name, body, o);
    if name in w.mem.instances {
      var rec := Patched(w.mem.instances[name], body);
      var after := PutInstance(w.mem, rec);
      var conf := WriteConfig(d, w.mem, rec, o.firstOrder);
      StartQuiet(d, w.mem, rec, o.firstOrder, o.starts, false);
      StartQuiet(d, after, rec, o.secondOrder, o.starts, Alive(Stopped(w, name), rec.name));
      StartQuiet(d, after, rec, o.secondOrder, o.starts, Alive(w, rec.name));
      if conf.error.None? {
        RenderedConfig(d, w.mem, rec, o.firstOrder);
        PutInstanceGood(d, w.mem, rec, w.issued);
        var tail := plan.steps[|conf.steps| + |Flush(after)|..];
        assert AllQuiet(tail);
        QuietFlushQuiet(d, w, conf.steps, after, tail, {});
        assert plan.steps == conf.steps + Flush(after) + tail;
      } else {
        QuietOnly(d, w, plan.steps, {});
      }
    } else {
      QuietOnly(d, w, plan.steps, {});
    }
  }

  lemma RenderedConfig(d: Dirs, mem: StoreData, rec: Instance, order: seq<string>)
    ensures WriteConfig(d, mem, rec, order).error.None? <==> Rendered(d, rec).Some?
    ensures WriteConfig(d, mem, rec, order).error.Some? ==> WriteConfig(d, mem, rec, order).steps == []
  {
    hide Rendered;
  }

  lemma DeleteInstanceSafe(d: Dirs, w: State, name: string)
    requires Sound(d, w) && Synced(w)
    ensures var steps := DeleteInstancePlan(w, name).steps;
            SafePlan(d, w, steps, Exec(w, steps).mem, {}) && Synced(Exec(w, steps))
  {
    hide GoodData, SafePlan, Exec;
    var plan := DeleteInstancePlan(w, name);
    if name in w.mem.instances {
      var after := DropInstance(w.mem, name);
      DropInstanceGood(d, w.mem, name, w.issued);
      QuietFlushQuiet(d, w, [StopProcess(name), RemoveConf(name)], after, [], {});
      assert plan.steps == [StopProcess(name), RemoveConf(name)] + Flush(after) + [];
    } else {
      QuietOnly(d, w, plan.steps, {});
    }
  }

  lemma PinQuiet(name: string, cn: string, ip: string)
    ensures AllQuiet(PinCall(name, cn, ip).steps)
    ensures PinCall(name, cn, ip).error.None? ==> GoodName(cn) && (Unpinned(ip) || PinFor(ip).Some?)
  {
    hide GoodName, PinFor, Unpinned;
  }

  lemma PasswordQuiet(mode: AuthMode, name: string, req: ClientRequest, o: Outside)
    ensures AllQuiet(PasswordPart(mode, name, req, o).steps)
  {
  }

  lemma CreateClientSteps(d: Dirs, w: State, name: string, req: ClientRequest, o: Outside,
                          mode: AuthMode, issue: Call, password: Call, pin: Call)
    requires Sound(d, w) && Synced(w) && Fresh(w, o.serial) && name in w.mem.instances
    requires issue == if UsesCert(mode) then Issue(w.disk, name, o) else Nothing
    requires AllQuiet(password.steps)
    requires pin == PinCall(name, Text.Trim(req.commonName), req.staticIp)
    ensures var after := PutClient(w.mem, name, NewClient(name, Text.Trim(req.commonName), mode, req, o));
            var steps := Then(Then(Then(issue, password), pin), Call(Flush(after), None)).steps;
            SafePlan(d, w, steps, Exec(w, steps).mem, {}) && Synced(Exec(w, steps))
  {
    hide GoodData, SafePlan, Exec, Issue, PinCall, GoodName, PinFor, Unpinned, IssuedKept, RevokedIssued, CrlWithin,
         Fresh, Flush, PutClient;
    var cn := Text.Trim(req.commonName);
    var c := NewClient(name, cn, mode, req, o);
    var after := PutClient(w.mem, name, c);
    var plan := Then(Then(Then(issue, password), pin), Call(Flush(after), None));
    PinQuiet(name, cn, req.staticIp);
    var w1 := Exec(w, issue.steps);
    var post := if plan.error.None? then after else w.mem;
    IssuePart(d, w, name, mode, o, post);
    var rest := AfterIssue(issue, password, pin, after);
    if plan.error.None? {
      PutClientGood(d, w.mem, name, c, w1.issued);
      QuietFlushQuiet(d, w1, password.steps + pin.steps, after, [], {});
      assert password.steps + pin.steps + Flush(after) + [] == rest;
    } else {
      QuietOnly(d, w1, rest, {});
    }
    SafeAppend(d, w, issue.steps, rest, post, {});
    ExecAppend(w, issue.steps, rest);
  }

  lemma AfterIssue(issue: Call, password: Call, pin: Call, after: StoreData) returns (rest: seq<Step>)
    requires AllQuiet(password.steps) && AllQuiet(pin.steps)
    requires issue.error.Some? ==> issue.steps == []
    ensures var plan := Then(Then(Then(issue, password), pin), Call(Flush(after), None));
            && plan.steps == issue.steps + rest
            && (plan.error.Some? ==> AllQuiet(rest))
            && (plan.error.None? ==> issue.error.None? && pin.error.None?)
            && (plan.error.None? ==> rest == password.steps + pin.steps + Flush(after))
  {
    hide Quiet, Flush;
    rest := if issue.error.Some? then []
            else if password.error.Some? then password.steps
            else if pin.error.Some? then password.steps + pin.steps
            else password.steps + pin.steps + Flush(after);
  }

  lemma CreateClientSafe(d: Dirs, w: State, name: string, req: ClientRequest, o: Outside)
    requires Sound(d, w) && Synced(w) && Fresh(w, o.serial)
    ensures var steps := CreateClientPlan(w, name, req, o).steps;
            SafePlan(d, w, steps, Exec(w, steps).mem, {}) && Synced(Exec(w, steps))
  {
    hide GoodData, SafePlan, Exec, Issue, PinCall, SetPassword, Fresh, NewClient, Flush, PutClient;
    var plan := CreateClientPlan(w, name, req, o);
    var cn := Text.Trim(req.commonName);
    if name in w.mem.instances && cn != "" && cn !in ClientsOf(w.mem, name) {
      var mode := OrAuth(req.authMode, w.mem.instances[name].authMode);
      var issue := if UsesCert(mode) then Issue(w.disk, name, o) else Nothing;
      PasswordQuiet(mode, name, req, o);
      CreateClientSteps(d, w, name, req, o, mode, issue, PasswordPart(mode, name, req, o),
          PinCall(name, cn, req.staticIp));
    } else {
      QuietOnly(d, w, plan.steps, {});
    }
  }

  lemma IssuePart(d: Dirs, w: State, name: string, mode: AuthMode, o: Outside, post: StoreData)
    requires Sound(d, w) && Synced(w) && Fresh(w, o.serial)
    ensures var issue := if UsesCert(mode) then Issue(w.disk, name, o) else Nothing;
            && SafePlan(d, w, issue.steps, post, {})
            && Exec(w, issue.steps).mem == w.mem && Synced(Exec(w, issue.steps))
            && GoodData(d, w.mem, Exec(w, issue.steps).issued)
            && (issue.error.Some? ==> issue.steps == [])
            && (issue.error.None? && UsesCert(mode) ==>
                Slot(name, Numerals.Hex(o.serial)) in Exec(w, issue.steps).issued)
  {
    if UsesCert(mode) {
      IssueSafe(d, w, name, o, post, {});
      if Issue(w.disk, name, o).error.None? {
        var slot := Slot(name, Numerals.Hex(o.serial));
        GoodDataMonotone(d, w.mem, w.issued, slot, o.cert + o.key + w.disk.caCert[name]);
      }
    }
  }

  lemma PatchClientSafe(d: Dirs, w: State, name: string, cn: string, body: Body, o: Outside)
    requires Sound(d, w) && Synced(w)
    ensures var steps := PatchClientPlan(w, name, cn, body, o).steps;
            SafePlan(d, w, steps, Exec(w, steps).mem, {}) && Synced(Exec(w, steps))
  {
    hide Rendered, SafePlan, Exec, PinCall, GoodName, PinFor, Unpinned, NewPassword;
    var plan := PatchClientPlan(w, name, cn, body, o);
    if cn in ClientsOf(w.mem, name) {
      var c := PatchedClient(ClientsOf(w.mem, name)[cn], body);
      var pin := PinCall(name, cn, c.staticIp);
      PinQuiet(name, cn, c.staticIp);
      if plan.error.None? {
        var after := PutClient(w.mem, name, c);
        var front := plan.steps[..|plan.steps| - |Flush(after)|];
        assert AllQuiet(front);
        PutClientGood(d, w.mem, name, c, w.issued);
        QuietFlushQuiet(d, w, front, after, [], {});
        assert plan.steps == front + Flush(after) + [];
      } else {
        QuietOnly(d, w, plan.steps, {});
      }
    } else {
      QuietOnly(d, w, plan.steps, {});
    }
  }

  lemma LostIsTheSerial(w: State, name: string, cn: string)
    requires Shape(w.mem) && cn in ClientsOf(w.mem, name)
    ensures var c := ClientsOf(w.mem, name)[cn];
            forall slot | slot in Lost(DeleteClient(name, cn), w.mem, DropClient(w.mem, name, cn)) ::
              slot == Slot(name, c.certSerial) && c.certSerial != ""
  {
    var post := DropClient(w.mem, name, cn);
    forall n, x | n in w.mem.clients && x in w.mem.clients[n] && (n != name || x != cn)
      ensures n in post.clients && x in post.clients[n] && post.clients[n][x] == w.mem.clients[n][x]
    {
    }
  }

  // Reload, password and pin: what a deletion does between revocation and store.
  function ForgetFiles(disk: Disk, name: string, c: Client): seq<Step> {
    (if c.certSerial != "" then [Hangup(name)] else [])
    + (if UsesPassword(c.authMode) then DeletePassword(disk, name, c.commonName) else [])
    + (if GoodName(c.commonName) then [RemovePin(Slot(name, c.commonName))] else [])
  }

  lemma ForgetQuiet(d: Dirs, w: State, name: string, cn: string)
    requires Shape(w.mem) && cn in ClientsOf(w.mem, name)
    ensures var c := ClientsOf(w.mem, name)[cn];
            var revoke := Revoke(w.disk, name, c.certSerial);
            && c.commonName == cn
            && AllQuiet(ForgetFiles(w.disk, name, c))
            && (c.certSerial == "" || revoke.error.None? ==>
                  DeleteClientPlan(w, name, cn).steps
                  == (if c.certSerial != "" then revoke.steps else [])
                     + (ForgetFiles(w.disk, name, c) + Flush(DropClient(w.mem, name, cn))))
  {
    hide GoodName, DeletePassword, Revoke, Flush, DropClient, UsesPassword;
    DeletePasswordQuiet(w.disk, name, cn);
  }

  lemma DeleteClientSafe(d: Dirs, w: State, name: string, cn: string)
    requires Sound(d, w) && Synced(w)
    ensures var steps := DeleteClientPlan(w, name, cn).steps;
            var post := Exec(w, steps).mem;
            SafePlan(d, w, steps, post, Lost(DeleteClient(name, cn), w.mem, post)) && Synced(Exec(w, steps))
  {
    hide Rendered, SafePlan, Exec, GoodName, PinFor, Unpinned, IssuedKept, RevokedIssued, CrlWithin, DeletePassword,
         Revoke, Lost, Flush, DropClient;
    var plan := DeleteClientPlan(w, name, cn);
    if cn in ClientsOf(w.mem, name) {
      var c := ClientsOf(w.mem, name)[cn];
      var after := DropClient(w.mem, name, cn);
      var lost := Lost(DeleteClient(name, cn), w.mem, after);
      var front := if c.certSerial != "" then Revoke(w.disk, name, c.certSerial).steps else [];
      var middle := ForgetFiles(w.disk, name, c);
      ForgetQuiet(d, w, name, cn);
      var w1 := Exec(w, front);
      RevokePart(d, w, name, c, after, lost);
      LostIsTheSerial(w, name, cn);
      DropClientGood(d, w.mem, name, cn, w.issued);
      QuietFlushQuiet(d, w1, middle, after, [], lost);
      var rest := middle + Flush(after) + [];
      SafeAppend(d, w, front, rest, after, lost);
      ExecAppend(w, front, rest);
      assert middle + Flush(after) + [] == middle + Flush(after);
    } else {
      QuietOnly(d, w, plan.steps, Lost(DeleteClient(name, cn), w.mem, w.mem));
    }
  }

  lemma DeletePasswordQuiet(disk: Disk, name: string, cn: string)
    ensures AllQuiet(DeletePassword(disk, name, cn))
  {
  }

  lemma RevokePart(d: Dirs, w: State, name: string, c: Client, post: StoreData, lost: set<Slot>)
    requires Sound(d, w) && Synced(w)
    requires name in w.mem.clients && c.commonName in w.mem.clients[name] && w.mem.clients[name][c.commonName] == c
    ensures var front := if c.certSerial != "" then Revoke(w.disk, name, c.certSerial).steps else [];
            && (c.certSerial != "" ==> Revoke(w.disk, name, c.certSerial).error.None?)
            && SafePlan(d, w, front, post, lost)
            && Exec(w, front).mem == w.mem && Exec(w, front).issued == w.issued && Synced(Exec(w, front))
            && (c.certSerial != "" ==> c.certSerial in RevokedOf(Exec(w, front).disk, name))
  {
    hide Rendered, GoodName, PinFor, Unpinned;
    if c.certSerial != "" {
      RevokeSafe(d, w, name, c.certSerial, post, lost);
    }
  }

  /** Every call is safe at every prefix of its steps. */
  lemma PlanSafe(d: Dirs, w: State, r: Request, o: Outside)
    requires Sound(d, w) && Synced(w) && Admissible(w, r, o)
    ensures var steps := Plan(d, w, r, o).steps;
            var post := Exec(w, steps).mem;
            SafePlan(d, w, steps, post, Lost(r, w.mem, post)) && Synced(Exec(w, steps))
  {
    hide Sound, Synced, SafePlan, Exec, CreateInstancePlan, PatchInstancePlan, DeleteInstancePlan, CreateClientPlan,
         PatchClientPlan, DeleteClientPlan;
    match r
    case CreateInstance(req) => CreateInstanceSafe(d, w, req, o);
    case PatchInstance(name, body) => PatchInstanceSafe(d, w, name, body, o);
    case DeleteInstance(name) => DeleteInstanceSafe(d, w, name);
    case CreateClient(name, req) => CreateClientSafe(d, w, name, req, o);
    case PatchClient(name, cn, body) => PatchClientSafe(d, w, name, cn, body, o);
    case DeleteClient(name, cn) => DeleteClientSafe(d, w, name, cn);
  }
}
