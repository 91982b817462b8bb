/** What a request leaves in the store, read off its body field by field. */
module Requests {
  import opened Wrappers
  import opened Records
  import opened Config
  import opened World
  import opened Plans
  import opened Durable
  import opened Crash
  import opened Recovery
  import opened SteadyState
  import opened SteadyInstances
  import opened SteadyClients
  import opened Runs
  import opened Writes
  import Numerals
  import Ocpasswd
  import Processes
  import Text

  // ------------------------------------------------ values of a JSON body

  // The value under a key, if there is one.
  function At(body: Body, key: string): Option<Json> {
    if key in body then Some(body[key]) else None
  }

  // A text under the key is taken over; anything else leaves the field as it was.
  predicate TakesText(v: Option<Json>, before: string, after: string) {
    match v
    case Some(JString(s)) => after == s
    case _ => after == before
  }

  predicate TakesFlag(v: Option<Json>, before: bool, after: bool) {
    match v
    case Some(JBool(b)) => after == b
    case _ => after == before
  }

  // The integer nearest zero within one of v.
  predicate TowardZero(v: real, n: int) {
    if v >= 0.0 then n >= 0 && n as real <= v < n as real + 1.0
    else n <= 0 && n as real - 1.0 < v <= n as real
  }

  predicate TakesNumber(v: Option<Json>, before: int, after: int) {
    match v
    case Some(JNumber(n)) => TowardZero(n, after)
    case _ => after == before
  }

  // The texts among the items, in order: places lists exactly the indices that hold one.
  ghost predicate TextsAt(items: seq<Json>, texts: seq<string>, places: seq<nat>) {
    && |places| == |texts|
    && (forall i, j | 0 <= i < j < |places| :: places[i] < places[j])
    && (forall i: nat :: i in places <==> i < |items| && items[i].JString?)
    && forall i | 0 <= i < |places| :: places[i] < |items| && items[places[i]] == JString(texts[i])
  }

  ghost predicate Texts(items: seq<Json>, texts: seq<string>) {
    exists places: seq<nat> :: TextsAt(items, texts, places)
  }

  ghost predicate TakesTexts(v: Option<Json>, before: seq<string>, after: seq<string>) {
    match v
    case Some(JArray(items)) => Texts(items, after)
    case _ => after == before
  }

  predicate TakesCamouflage(v: Option<Json>, before: Camouflage, after: Camouflage) {
    && after.decoyHtml == before.decoyHtml
    && match v
       case Some(JObject(cam)) =>
         && TakesFlag(At(cam, "enabled"), before.enabled, after.enabled)
         && TakesText(At(cam, "secret"), before.secret, after.secret)
         && TakesText(At(cam, "realm"), before.realm, after.realm)
       case _ => after == before
  }

  // ------------------------------------------------ PatchInstance

  // The record a patch asks for: nine fields by their keys, the others as they were.
  ghost predicate AsAsked(body: Body, before: Instance, after: Instance) {
    && TakesText(At(body, "local_bind"), before.localBind, after.localBind)
    && TakesText(At(body, "public_endpoint"), before.publicEndpoint, after.publicEndpoint)
    && TakesFlag(At(body, "enabled"), before.enabled, after.enabled)
    && TakesFlag(At(body, "dtls"), before.dtls, after.dtls)
    && TakesFlag(At(body, "proxy_proto"), before.proxyProto, after.proxyProto)
    && TakesNumber(At(body, "tcp_port"), before.tcpPort, after.tcpPort)
    && TakesTexts(At(body, "dns"), before.dns, after.dns)
    && TakesTexts(At(body, "routes"), before.routes, after.routes)
    && TakesCamouflage(At(body, "camouflage"), before.camouflage, after.camouflage)
    && after.name == before.name && after.listen == before.listen && after.authMode == before.authMode
    && after.poolCidr == before.poolCidr && after.poolCidrV6 == before.poolCidrV6
  }

  lemma Truncated(v: real)
    ensures TowardZero(v, Truncate(v))
  {
  }

  /** A whole number is taken over as it is. */
  lemma WholeNumber(m: int, n: int)
    requires TowardZero(m as real, n)
    ensures n == m
  {
  }

  lemma {:induction false} StringsOf(items: seq<Json>)
    ensures Texts(items, ToStrings(items))
  {
    hide TextsAt;
    if items == [] {
      NoTexts();
    } else {
      StringsOf(items[1..]);
      var places :| TextsAt(items[1..], ToStrings(items[1..]), places);
      OneMore(items, ToStrings(items[1..]), places);
    }
  }

  lemma NoTexts()
    ensures TextsAt([], [], [])
  {
  }

  function Shifted(places: seq<nat>): (r: seq<nat>)
    ensures |r| == |places| && forall i | 0 <= i < |r| :: r[i] == places[i] + 1
  {
    seq(|places|, i requires 0 <= i < |places| => places[i] + 1)
  }

  lemma OneMore(items: seq<Json>, texts: seq<string>, places: seq<nat>)
    requires items != [] && TextsAt(items[1..], texts, places)
    ensures Texts(items, (if items[0].JString? then [items[0].s] else []) + texts)
  {
    hide TextsAt, Shifted;
    Later(items, texts, places);
    if items[0].JString? {
      First(items, texts, Shifted(places));
      assert TextsAt(items, [items[0].s] + texts, [0] + Shifted(places));
    } else {
      assert [] + texts == texts;
      NotFirst(items, texts, Shifted(places));
    }
  }

  // The same texts, found among the items after the first.
  ghost predicate TextsLater(items: seq<Json>, texts: seq<string>, places: seq<nat>) {
    && |places| == |texts|
    && (forall i, j | 0 <= i < j < |places| :: places[i] < places[j])
    && (forall i: nat :: i in places <==> 0 < i < |items| && items[i].JString?)
    && forall i | 0 <= i < |places| :: 0 < places[i] < |items| && items[places[i]] == JString(texts[i])
  }

  lemma Later(items: seq<Json>, texts: seq<string>, places: seq<nat>)
    requires items != [] && TextsAt(items[1..], texts, places)
    ensures TextsLater(items, texts, Shifted(places))
  {
    var more := Shifted(places);
    forall i: nat ensures i in more <==> 0 < i < |items| && items[i].JString? {
      ShiftedHas(places, i);
      if i > 0 {
        assert i - 1 in places <==> i - 1 < |items[1..]| && items[1..][i - 1].JString?;
      }
    }
    forall i | 0 <= i < |more| ensures 0 < more[i] < |items| && items[more[i]] == JString(texts[i]) {
      assert items[1..][places[i]] == items[more[i]];
    }
  }

  lemma First(items: seq<Json>, texts: seq<string>, places: seq<nat>)
    requires items != [] && items[0].JString? && TextsLater(items, texts, places)
    ensures TextsAt(items, [items[0].s] + texts, [0] + places)
  {
    var all := [0] + places;
    forall i: nat ensures i in all <==> i < |items| && items[i].JString? {
      assert i in all <==> i == 0 || i in places;
    }
  }

  lemma NotFirst(items: seq<Json>, texts: seq<string>, places: seq<nat>)
    requires items != [] && !items[0].JString? && TextsLater(items, texts, places)
    ensures TextsAt(items, texts, places)
  {
  }

  lemma ShiftedHas(places: seq<nat>, i: nat)
    ensures i in Shifted(places) <==> i > 0 && i - 1 in places
  {
    if i > 0 && i - 1 in places {
      var k :| 0 <= k < |places| && places[k] == i - 1;
      assert Shifted(places)[k] == i;
    }
    if i in Shifted(places) {
      var k :| 0 <= k < |places| && Shifted(places)[k] == i;
      assert places[k] == i - 1;
    }
  }

  lemma ListTaken(body: Body, key: string, current: seq<string>)
    ensures TakesTexts(At(body, key), current, ListField(body, key, current))
  {
    hide Texts, ToStrings;
    if key in body && body[key].JArray? {
      StringsOf(body[key].items);
    }
  }

  lemma CamouflageTaken(c: Camouflage, body: Body)
    ensures TakesCamouflage(At(body, "camouflage"), c, PatchedCamouflage(c, body))
  {
  }

  lemma NumberTaken(body: Body, key: string, current: int)
    ensures TakesNumber(At(body, key), current, IntField(body, key, current))
  {
    hide Truncate, TowardZero;
    if key in body && body[key].JNumber? {
      Truncated(body[key].n);
    }
  }

  lemma TextTaken(body: Body, key: string, current: string)
    ensures TakesText(At(body, key), current, StringField(body, key, current))
  {
  }

  lemma FlagTaken(body: Body, key: string, current: bool)
    ensures TakesFlag(At(body, key), current, BoolField(body, key, current))
  {
  }

  lemma PatchedAsAsked(rec: Instance, body: Body)
    ensures AsAsked(body, rec, Patched(rec, body))
  {
    hide At, TakesText, TakesFlag, TakesNumber, TakesTexts, TakesCamouflage, StringField, BoolField, IntField,
         ListField, PatchedCamouflage;
    TextTaken(body, "local_bind", rec.localBind);
    TextTaken(body, "public_endpoint", rec.publicEndpoint);
    FlagTaken(body, "enabled", rec.enabled);
    FlagTaken(body, "dtls", rec.dtls);
    FlagTaken(body, "proxy_proto", rec.proxyProto);
    NumberTaken(body, "tcp_port", rec.tcpPort);
    ListTaken(body, "dns", rec.dns);
    ListTaken(body, "routes", rec.routes);
    CamouflageTaken(rec.camouflage, body);
  }

  /**
   * A patch that is not refused stores exactly the record it asks for, on disk as
   * in memory, and no other instance or client changes.
   */
  lemma PatchInstanceStores(d: Dirs, w: State, name: string, body: Body, o: Outside)
    requires Sound(d, w) && Synced(w) && Admissible(w, PatchInstance(name, body), o)
    requires PatchInstancePlan(d, w, name, body, o).error !in {Some(NotFound), Some(RenderFailed)}
    ensures var v := Exec(w, PatchInstancePlan(d, w, name, body, o).steps);
            && name in w.mem.instances && name in v.mem.instances
            && AsAsked(body, w.mem.instances[name], v.mem.instances[name])
            && v.mem == StoreData(w.mem.instances[name := v.mem.instances[name]], w.mem.clients)
            && Open(v.disk) == v.mem
  {
    hide *;
    var r := PatchInstance(name, body);
    RefusedPatch(d, w, name, body, o);
    var rec := Patched(w.mem.instances[name], body);
    var a, b := PatchInstanceParts(d, w, name, body, o);
    FilesHas();
    WithinMore(a, {Elsewhere}, FILES);
    WithinMore(b, {Elsewhere}, FILES);
    CommitsOnce(w, a, PutInstance(w.mem, rec), b);
    PatchedAsAsked(w.mem.instances[name], body);
    SoundShape(d, w, name);
    PatchedPut(w.mem, name, body);
    CallPlan(d, w, r, o);
    CompletedSound(d, w, r, o);
    SyncedMeans(Exec(w, PatchInstancePlan(d, w, name, body, o).steps));
  }

  lemma PatchedPut(data: StoreData, name: string, body: Body)
    requires name in data.instances && name in data.clients && data.instances[name].name == name
    ensures var rec := Patched(data.instances[name], body);
            PutInstance(data, rec) == StoreData(data.instances[name := rec], data.clients)
  {
    hide StringField, BoolField, IntField, ListField, PatchedCamouflage;
  }

  lemma SyncedMeans(w: State)
    requires Synced(w)
    ensures Open(w.disk) == w.mem
  {
  }

  lemma CallPlan(d: Dirs, w: State, r: Request, o: Outside)
    ensures r.CreateInstance? ==> Plan(d, w, r, o) == CreateInstancePlan(d, w, r.inst, o)
    ensures r.PatchInstance? ==> Plan(d, w, r, o) == PatchInstancePlan(d, w, r.name, r.body, o)
    ensures r.CreateClient? ==> Plan(d, w, r, o) == CreateClientPlan(w, r.name, r.peer, o)
    ensures r.PatchClient? ==> Plan(d, w, r, o) == PatchClientPlan(w, r.name, r.cn, r.body, o)
  {
    hide CreateInstancePlan, PatchInstancePlan, CreateClientPlan, PatchClientPlan;
  }

  // ------------------------------------------------ PatchClient

  // The client a patch asks for: three fields by their keys, the others as they were.
  predicate ClientAsAsked(body: Body, before: Client, after: Client) {
    && TakesText(At(body, "static_ip"), before.staticIp, after.staticIp)
    && TakesFlag(At(body, "suspended"), before.suspended, after.suspended)
    && TakesFlag(At(body, "enabled"), before.enabled, after.enabled)
    && after.displayName == before.displayName && after.commonName == before.commonName
    && after.instanceName == before.instanceName && after.authMode == before.authMode
    && after.certSerial == before.certSerial
  }

  // A new password is asked for, and the client logs in with one.
  predicate AsksPassword(body: Body, c: Client) {
    && (c.authMode == Password || c.authMode == Both)
    && match At(body, "password")
       case Some(JString(s)) => s != ""
       case _ => false
  }

  // The password files after a tool that did not fail.
  function Repassworded(w: State, name: string, o: Outside, asked: bool): map<string, string>
    requires asked ==> o.passwd.Some?
  {
    if asked then w.disk.passwd[name := o.passwd.value] else w.disk.passwd
  }

  lemma PatchedClientAsAsked(c: Client, body: Body)
    ensures ClientAsAsked(body, c, PatchedClient(c, body))
  {
    hide At, TakesText, TakesFlag, StringField, BoolField;
    TextTaken(body, "static_ip", c.staticIp);
    FlagTaken(body, "suspended", c.suspended);
    FlagTaken(body, "enabled", c.enabled);
  }

  lemma PasswordAsked(name: string, c: Client, body: Body, o: Outside)
    ensures var asked, password := AsksPassword(body, c), PatchPassword(name, PatchedClient(c, body), body, o);
            && (password.error.None? <==> asked ==> o.passwd.Some?)
            && (password.error.None? ==>
                  password.steps == if asked then [WritePasswd(name, o.passwd.value)] else [])
  {
    hide BoolField;
  }

  // The plan by its parts, and when it succeeds.
  lemma PatchClientOutcome(w: State, name: string, cn: string, body: Body, o: Outside)
    requires cn in ClientsOf(w.mem, name) && name in w.mem.instances
    ensures var c := PatchedClient(ClientsOf(w.mem, name)[cn], body);
            var plan := PatchClientPlan(w, name, cn, body, o);
            var password, pin := PatchPassword(name, c, body, o), PinCall(name, cn, c.staticIp);
            && (plan.error.None? <==> password.error.None? && pin.error.None?)
            && (plan.error.None? ==> plan.steps == password.steps + pin.steps + Flush(PutClient(w.mem, name, c)))
  {
    hide PatchedClient, PinCall, Flush, PutClient, NewPassword, UsesPassword, SetPassword;
  }

  lemma PasswordSet(w: State, name: string, o: Outside, asked: bool)
    requires asked ==> o.passwd.Some?
    ensures Exec(w, if asked then [WritePasswd(name, o.passwd.value)] else [])
         == w.(disk := w.disk.(passwd := Repassworded(w, name, o, asked)))
  {
    hide Exec;
    ExecNone(w);
    if asked {
      ExecOne(w, WritePasswd(name, o.passwd.value));
    }
  }

  // What the three parts of a successful patch leave: passwords, pins and the store.
  lemma PatchClientState(w: State, name: string, cn: string, ip: string, o: Outside, asked: bool, after: StoreData)
    requires (asked ==> o.passwd.Some?) && PinCall(name, cn, ip).error.None?
    ensures var password: seq<Step> := if asked then [WritePasswd(name, o.passwd.value)] else [];
            var v := Exec(w, password + PinCall(name, cn, ip).steps + Flush(after));
            && v.mem == after && Open(v.disk) == after
            && v.disk.passwd == Repassworded(w, name, o, asked)
            && Repinned(w.disk.pins, v.disk.pins, Slot(name, cn), ip)
            && v.procs == w.procs && v.issued == w.issued
  {
    hide Exec, PinCall, Repinned, Repassworded, Flush;
    var password: seq<Step> := if asked then [WritePasswd(name, o.passwd.value)] else [];
    var pin := PinCall(name, cn, ip).steps;
    var u := Exec(w, password);
    PasswordSet(w, name, o, asked);
    PinResult(u, name, cn, ip);
    ExecAppend(w, password, pin);
    ExecAppend(w, password + pin, Flush(after));
    FlushResult(Exec(u, pin), after);
  }

  /**
   * A patch of a client that succeeds stores exactly the client it asks for and
   * pins it to the stored address, or to none for a blank one. The password file
   * changes exactly when a password client is given a new one. Nothing else moves.
   */
  lemma PatchClientStores(d: Dirs, w: State, name: string, cn: string, body: Body, o: Outside)
    requires Sound(d, w) && Synced(w) && PatchClientPlan(w, name, cn, body, o).error.None?
    ensures cn in ClientsOf(w.mem, name) && name in w.mem.clients
    ensures AsksPassword(body, ClientsOf(w.mem, name)[cn]) ==> o.passwd.Some?
    ensures var v := Exec(w, PatchClientPlan(w, name, cn, body, o).steps);
            var before := ClientsOf(w.mem, name)[cn];
            && cn in ClientsOf(v.mem, name)
            && var after := ClientsOf(v.mem, name)[cn];
               && ClientAsAsked(body, before, after)
               && v.mem == StoreData(w.mem.instances, w.mem.clients[name := w.mem.clients[name][cn := after]])
               && Open(v.disk) == v.mem
               && (Slot(name, cn) in v.disk.pins <==> Text.Trim(after.staticIp) != "")
               && (Slot(name, cn) in v.disk.pins ==> Some(v.disk.pins[Slot(name, cn)]) == PinFor(after.staticIp))
               && (forall slot: Slot | slot != Slot(name, cn) :: SameAt(w.disk.pins, v.disk.pins, slot))
               && v.disk.passwd == Repassworded(w, name, o, AsksPassword(body, before))
               && v.procs == w.procs && v.issued == w.issued
  {
    hide *;
    PatchClientKnown(w, name, cn, body, o);
    StoredName(d, w, name, cn);
    var before := ClientsOf(w.mem, name)[cn];
    var c := PatchedClient(before, body);
    var asked := AsksPassword(body, before);
    PatchClientOutcome(w, name, cn, body, o);
    PasswordAsked(name, before, body, o);
    PatchedClientAsAsked(before, body);
    PatchedClientKeeps(before, body);
    PatchClientState(w, name, cn, c.staticIp, o, asked, PutClient(w.mem, name, c));
    ClientPut(w.mem, name, cn, c);
    var v := Exec(w, PatchClientPlan(w, name, cn, body, o).steps);
    RepinnedMeans(w.disk.pins, v.disk.pins, Slot(name, cn), c.staticIp);
  }

  lemma PatchClientKnown(w: State, name: string, cn: string, body: Body, o: Outside)
    requires PatchClientPlan(w, name, cn, body, o).error.None?
    ensures cn in ClientsOf(w.mem, name)
  {
    hide ClientsOf;
  }

  lemma ClientPut(data: StoreData, name: string, cn: string, c: Client)
    requires name in data.clients && c.commonName == cn
    ensures var post := PutClient(data, name, c);
            && post == StoreData(data.instances, data.clients[name := data.clients[name][cn := c]])
            && cn in ClientsOf(post, name) && ClientsOf(post, name)[cn] == c
  {
  }

  lemma RepinnedMeans(before: map<Slot, string>, after: map<Slot, string>, slot: Slot, ip: string)
    requires Repinned(before, after, slot, ip)
    ensures slot in after <==> Text.Trim(ip) != ""
    ensures slot in after ==> Some(after[slot]) == PinFor(ip)
    ensures forall other: Slot | other != slot :: SameAt(before, after, other)
  {
    hide SameAt, PinFor, Unpinned;
    UnpinnedIff(ip);
  }

  // The address a patched client will have.
  function AddressAsked(body: Body, c: Client): string {
    match At(body, "static_ip")
    case Some(JString(s)) => s
    case _ => c.staticIp
  }

  /**
   * PatchClient succeeds exactly for a stored client, an address that is blank or
   * IPv4, and a tool that does not fail when a password client gets a new password.
   */
  lemma PatchClientSucceedsIff(d: Dirs, w: State, name: string, cn: string, body: Body, o: Outside)
    requires Sound(d, w) && Synced(w)
    ensures PatchClientPlan(w, name, cn, body, o).error.None? <==>
              && cn in ClientsOf(w.mem, name)
              && var c := ClientsOf(w.mem, name)[cn];
                 && (AsksPassword(body, c) ==> o.passwd.Some?)
                 && (Text.Trim(AddressAsked(body, c)) == "" || PinFor(AddressAsked(body, c)).Some?)
  {
    hide *;
    if cn in ClientsOf(w.mem, name) {
      StoredName(d, w, name, cn);
      var c := ClientsOf(w.mem, name)[cn];
      PatchClientOutcome(w, name, cn, body, o);
      PasswordAsked(name, c, body, o);
      AddressTaken(c, body);
      PinErrorIff(name, cn, AddressAsked(body, c));
      UnpinnedIff(AddressAsked(body, c));
    } else if PatchClientPlan(w, name, cn, body, o).error.None? {
      PatchClientKnown(w, name, cn, body, o);
    }
  }

  lemma AddressTaken(c: Client, body: Body)
    ensures PatchedClient(c, body).staticIp == AddressAsked(body, c)
  {
    hide BoolField;
  }

  lemma PinErrorIff(name: string, cn: string, ip: string)
    requires GoodName(cn)
    ensures PinCall(name, cn, ip).error.None? <==> Unpinned(ip) || PinFor(ip).Some?
  {
    hide GoodName, PinFor, Unpinned;
  }

  // ------------------------------------------------ CreateInstance

  // The text of a request, or a default when it is blank.
  predicate TextOr(asked: string, def: string, got: string) {
    got == if Text.Trim(asked) == "" then def else asked
  }

  predicate FlagOr(asked: Option<bool>, def: bool, got: bool) {
    match asked
    case None => got == def
    case Some(b) => got == b
  }

  // The record a request for a new instance asks for.
  predicate InstanceAsAsked(req: InstanceRequest, rec: Instance) {
    && rec.name == Text.Trim(req.name)
    && TextOr(req.listen, ":443", rec.listen)
    && FlagOr(req.dtls, true, rec.dtls)
    && rec.tcpPort == req.tcpPort
    && FlagOr(req.proxyProto, false, rec.proxyProto)
    && rec.poolCidr == req.poolCidr && rec.poolCidrV6 == req.poolCidrV6
    && rec.publicEndpoint == req.publicEndpoint && rec.localBind == req.localBind
    && rec.authMode == (if req.authMode == Unset then Cert else req.authMode)
    && rec.camouflage == (if req.camouflage.Some? then req.camouflage.value else Camouflage(false, "", "", ""))
    && rec.dns == req.dns && rec.routes == req.routes
    && FlagOr(req.enabled, true, rec.enabled)
  }

  lemma NewInstanceAsAsked(req: InstanceRequest)
    ensures InstanceAsAsked(req, NewInstance(req))
  {
    hide Text.Trim;
  }

  /** A created instance is stored field by field as asked, with no clients, and nothing else changes. */
  lemma CreateInstanceStores(d: Dirs, w: State, req: InstanceRequest, o: Outside)
    requires Sound(d, w) && Synced(w) && Admissible(w, CreateInstance(req), o)
    requires CreateInstancePlan(d, w, req, o).error.None?
    ensures var v := Exec(w, CreateInstancePlan(d, w, req, o).steps);
            var name := Text.Trim(req.name);
            && name !in w.mem.instances && name in v.mem.instances
            && InstanceAsAsked(req, v.mem.instances[name])
            && v.mem == StoreData(w.mem.instances[name := v.mem.instances[name]], w.mem.clients[name := map[]])
            && Open(v.disk) == v.mem
  {
    hide *;
    var rec := NewInstance(req);
    var a, b := CreateInstanceParts(d, w, req, o);
    FilesHas();
    WithinMore(a, {Elsewhere}, FILES);
    WithinMore(b, {Elsewhere}, FILES);
    CommitsOnce(w, a, PutInstance(w.mem, rec), b);
    CreateInstanceCases(d, w, req, o);
    NewInstanceAsAsked(req);
    NameAsAsked(req, rec);
    SoundShape(d, w, rec.name);
    InstancePut(w.mem, rec);
    CallPlan(d, w, CreateInstance(req), o);
    CompletedSound(d, w, CreateInstance(req), o);
    SyncedMeans(Exec(w, CreateInstancePlan(d, w, req, o).steps));
  }

  lemma NameAsAsked(req: InstanceRequest, rec: Instance)
    requires InstanceAsAsked(req, rec)
    ensures rec.name == Text.Trim(req.name)
  {
    hide Text.Trim;
  }

  lemma InstancePut(data: StoreData, rec: Instance)
    requires rec.name !in data.clients
    ensures PutInstance(data, rec) == StoreData(data.instances[rec.name := rec], data.clients[rec.name := map[]])
  {
  }

  // ------------------------------------------------ CreateClient

  // The client a request asks for.
  predicate PeerAsAsked(req: ClientRequest, inst: Instance, serial: string, c: Client) {
    && c.commonName == Text.Trim(req.commonName)
    && TextOr(req.displayName, Text.Trim(req.commonName), c.displayName)
    && c.instanceName == inst.name
    && c.authMode == (if req.authMode == Unset then inst.authMode else req.authMode)
    && c.staticIp == req.staticIp
    && c.enabled && !c.suspended
    && c.certSerial == if c.authMode == Cert || c.authMode == Both then serial else ""
  }

  lemma NewcomerAsAsked(w: State, name: string, req: ClientRequest, o: Outside)
    requires name in w.mem.instances && w.mem.instances[name].name == name
    ensures PeerAsAsked(req, w.mem.instances[name], Numerals.Hex(o.serial), Newcomer(w, name, req, o))
  {
    hide Text.Trim, Numerals.Hex;
  }

  /**
   * A created client is stored field by field as asked, under a serial of its own
   * when it uses a certificate, and nothing else in the store changes.
   */
  lemma NewClientStored(d: Dirs, w: State, name: string, req: ClientRequest, o: Outside)
    requires Sound(d, w) && Synced(w) && Admissible(w, CreateClient(name, req), o)
    requires CreateClientPlan(w, name, req, o).error.None?
    ensures name in w.mem.instances && name in w.mem.clients
    ensures var v := Exec(w, CreateClientPlan(w, name, req, o).steps);
            var cn := Text.Trim(req.commonName);
            && cn !in w.mem.clients[name] && cn in ClientsOf(v.mem, name)
            && var c := ClientsOf(v.mem, name)[cn];
               && PeerAsAsked(req, w.mem.instances[name], Numerals.Hex(o.serial), c)
               && v.mem == StoreData(w.mem.instances, w.mem.clients[name := w.mem.clients[name][cn := c]])
               && Open(v.disk) == v.mem
  {
    hide *;
    var issue, password, pin := CreateClientParts(w, name, req, o);
    var c := Newcomer(w, name, req, o);
    FilesHas();
    PartsWithin(issue, {InCerts, Elsewhere}, password, pin, PutClient(w.mem, name, c), FILES);
    CommitsLast(w, issue + password + pin, PutClient(w.mem, name, c), 0);
    SoundShape(d, w, name);
    NewcomerAsAsked(w, name, req, o);
    PeerNamed(req, w.mem.instances[name], Numerals.Hex(o.serial), c);
    if !Passes(w, name, req) {
      NotPassing(w, name, req, o);
    }
    PassesMeans(w, name, req);
    ClientPut(w.mem, name, Text.Trim(req.commonName), c);
    ClientsThere(w.mem, name);
    CallPlan(d, w, CreateClient(name, req), o);
    CompletedSound(d, w, CreateClient(name, req), o);
    SyncedMeans(Exec(w, CreateClientPlan(w, name, req, o).steps));
  }

  lemma PeerNamed(req: ClientRequest, inst: Instance, serial: string, c: Client)
    requires PeerAsAsked(req, inst, serial, c)
    ensures c.commonName == Text.Trim(req.commonName)
  {
    hide Text.Trim;
  }

  lemma ClientsThere(data: StoreData, name: string)
    requires name in data.clients
    ensures ClientsOf(data, name) == data.clients[name]
  {
  }

  // ------------------------------------------------ certificates of an instance

  // Steps that write a CA or a server certificate.
  predicate CertificateStep(s: Step) {
    s.WriteCaCert? || s.WriteCaKey? || s.WriteServerCert? || s.WriteServerKey?
  }

  predicate SameCertificates(a: Disk, b: Disk) {
    && b.caCert == a.caCert && b.caKey == a.caKey && b.serverCert == a.serverCert && b.serverKey == a.serverKey
  }

  predicate NoCertificates(steps: seq<Step>) {
    forall i | 0 <= i < |steps| :: !CertificateStep(steps[i])
  }

  lemma OtherStep(w: State, s: Step)
    requires !CertificateStep(s)
    ensures SameCertificates(w.disk, Apply(w, s).disk)
  {
    hide Started, Stopped, Reloaded;
    ProcessFrame(w, s);
  }

  lemma {:induction false} OtherSteps(w: State, steps: seq<Step>)
    requires NoCertificates(steps)
    ensures SameCertificates(w.disk, Exec(w, steps).disk)
    decreases |steps|
  {
    hide Apply, CertificateStep;
    if steps != [] {
      OtherStep(w, steps[0]);
      OtherSteps(Apply(w, steps[0]), steps[1..]);
    }
  }

  lemma {:induction false} SyncOther(clients: map<string, Client>, name: string, order: seq<string>)
    ensures NoCertificates(SyncPins(clients, name, order))
  {
    hide GoodName, PinFor, Unpinned;
    if order != [] {
      SyncOther(clients, name, order[1..]);
    }
  }

  lemma ConfigOther(d: Dirs, mem: StoreData, rec: Instance, order: seq<string>, starts: bool, alive: bool)
    ensures NoCertificates(WriteConfig(d, mem, rec, order).steps)
    ensures NoCertificates(StartInstance(d, mem, rec, order, starts, alive).steps)
  {
    hide Rendered, SyncPins;
    SyncOther(ClientsOf(mem, rec.name), rec.name, order);
  }

  lemma OtherAppend(a: seq<Step>, data: StoreData, b: seq<Step>)
    requires NoCertificates(a) && NoCertificates(b)
    ensures NoCertificates(a + (Flush(data) + b))
  {
  }

  // A new file, unless both files of the pair were there.
  function Kept(there: bool, before: map<string, string>, name: string, made: string): map<string, string> {
    if there then before else before[name := made]
  }

  lemma CaMade(w: State, name: string, o: Outside, wanted: bool)
    ensures var there := CaLoads(w.disk, name) || !wanted;
            var v := Exec(w, if wanted then EnsureCa(w.disk, name, o) else []);
            && v.disk.caCert == Kept(there, w.disk.caCert, name, o.caCert)
            && v.disk.caKey == Kept(there, w.disk.caKey, name, o.caKey)
            && v.disk.serverCert == w.disk.serverCert && v.disk.serverKey == w.disk.serverKey
  {
    hide Exec, Started, Stopped, Reloaded;
    ExecNone(w);
    if wanted && !CaLoads(w.disk, name) {
      ExecThree(w, WriteCaCert(name, o.caCert), WriteCaKey(name, o.caKey), WriteCrl(name, {}));
    }
  }

  lemma ServerMade(u: State, disk: Disk, rec: Instance, o: Outside)
    requires EnsureServerCert(disk, rec, o).error.None?
    requires u.disk.serverCert == disk.serverCert && u.disk.serverKey == disk.serverKey
    ensures var there := rec.name in disk.serverCert && rec.name in disk.serverKey;
            var v := Exec(u, EnsureServerCert(disk, rec, o).steps);
            && v.disk.serverCert == Kept(there, disk.serverCert, rec.name, o.serverCert)
            && v.disk.serverKey == Kept(there, disk.serverKey, rec.name, o.serverKey)
            && v.disk.caCert == u.disk.caCert && v.disk.caKey == u.disk.caKey
  {
    hide Exec, Started, Stopped, Reloaded, HostOnly, Ascii;
    ExecNone(u);
    if !ServerCertThere(disk, rec.name) {
      ExecTwo(u, WriteServerCert(rec.name, o.serverCert), WriteServerKey(rec.name, o.serverKey));
    }
  }

  // CreateInstance as CA, server certificate and the rest.
  lemma CreatedFrom(d: Dirs, w: State, req: InstanceRequest, o: Outside) returns (rest: seq<Step>)
    requires CreateInstancePlan(d, w, req, o).error.None?
    ensures var rec := NewInstance(req);
            var ca := if UsesCert(rec.authMode) || req.createCaIfEmpty then EnsureCa(w.disk, rec.name, o) else [];
            var server := EnsureServerCert(w.disk, rec, o);
            && server.error.None? && NoCertificates(rest)
            && CreateInstancePlan(d, w, req, o).steps == ca + (server.steps + rest)
  {
    hide *;
    var rec := NewInstance(req);
    var after := PutInstance(w.mem, rec);
    CreateInstanceCases(d, w, req, o);
    PrepareParts(d, w, rec, o);
    var ca := if UsesCert(rec.authMode) || req.createCaIfEmpty then EnsureCa(w.disk, rec.name, o) else [];
    var server, config := EnsureServerCert(w.disk, rec, o), WriteConfig(d, w.mem, rec, o.firstOrder);
    var start := if rec.enabled then
                   StartInstance(d, after, rec, o.secondOrder, o.starts, Alive(w, rec.name)).steps
                 else [];
    ConfigOther(d, w.mem, rec, o.firstOrder, false, false);
    ConfigOther(d, after, rec, o.secondOrder, o.starts, Alive(w, rec.name));
    NothingOther();
    rest := config.steps + (Flush(after) + start);
    OtherAppend(config.steps, after, start);
    assert ca + (server.steps + config.steps) + (Flush(after) + start) == ca + (server.steps + rest);
  }

  lemma NothingOther()
    ensures NoCertificates([])
  {
  }

  lemma PrepareParts(d: Dirs, w: State, rec: Instance, o: Outside)
    requires Prepare(d, w, rec, o).error.None?
    ensures EnsureServerCert(w.disk, rec, o).error.None?
    ensures Prepare(d, w, rec, o).steps
         == EnsureServerCert(w.disk, rec, o).steps + WriteConfig(d, w.mem, rec, o.firstOrder).steps
  {
    hide EnsureServerCert, WriteConfig;
  }

  /**
   * A created instance has a certificate and a key for its server, and a CA when its
   * mode or the request asks for one: the pair that was there, or else the new pair,
   * each text in its own file.
   */
  lemma CreateInstanceCertificates(d: Dirs, w: State, req: InstanceRequest, o: Outside)
    requires CreateInstancePlan(d, w, req, o).error.None?
    ensures var v := Exec(w, CreateInstancePlan(d, w, req, o).steps);
            var name := Text.Trim(req.name);
            var server := name in w.disk.serverCert && name in w.disk.serverKey;
            var wanted := req.authMode in {Unset, Cert, Both} || req.createCaIfEmpty;
            var ca := (name in w.disk.caCert && name in w.disk.caKey) || !wanted;
            && v.disk.serverCert == Kept(server, w.disk.serverCert, name, o.serverCert)
            && v.disk.serverKey == Kept(server, w.disk.serverKey, name, o.serverKey)
            && v.disk.caCert == Kept(ca, w.disk.caCert, name, o.caCert)
            && v.disk.caKey == Kept(ca, w.disk.caKey, name, o.caKey)
  {
    hide *;
    var rec := NewInstance(req);
    var rest := CreatedFrom(d, w, req, o);
    var wanted := UsesCert(rec.authMode) || req.createCaIfEmpty;
    var ca := if wanted then EnsureCa(w.disk, rec.name, o) else [];
    var server := EnsureServerCert(w.disk, rec, o).steps;
    var u := Exec(w, ca);
    CaMade(w, rec.name, o, wanted);
    ServerMade(u, w.disk, rec, o);
    OtherSteps(Exec(u, server), rest);
    ExecAppend(w, ca, server + rest);
    ExecAppend(u, server, rest);
    CertificatesMean(Exec(u, server).disk, Exec(Exec(u, server), rest).disk);
    NewInstanceAsAsked(req);
    NameAsAsked(req, rec);
    WantsCa(req, rec);
    LoadsMeans(w.disk, rec.name);
  }

  lemma WantsCa(req: InstanceRequest, rec: Instance)
    requires InstanceAsAsked(req, rec)
    ensures UsesCert(rec.authMode) <==> req.authMode in {Unset, Cert, Both}
  {
    hide Text.Trim;
  }

  lemma LoadsMeans(disk: Disk, name: string)
    ensures CaLoads(disk, name) <==> name in disk.caCert && name in disk.caKey
  {
  }

  lemma CertificatesMean(a: Disk, b: Disk)
    requires SameCertificates(a, b)
    ensures b.caCert == a.caCert && b.caKey == a.caKey && b.serverCert == a.serverCert && b.serverKey == a.serverKey
  {
  }
}
