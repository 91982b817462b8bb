/**
 * What each API call does, as the exact order of its steps. A call that fails
 * part of the way keeps the steps it has already taken.
 */
module Plans {
  import opened Wrappers
  import opened Records
  import opened Config
  import opened World
  import Numerals
  import Ocpasswd
  import Paths
  import Text

  datatype Error =
    | NotFound | AlreadyExists | NameRequired | PoolRequired | CommonNameRequired
    | RenderFailed | BadHost | StartFailed | NoCa | PasswordRequired | PasswordTool | BadPin

  datatype Call = Call(steps: seq<Step>, error: Option<Error>)

  // What the program cannot know: iteration orders of Go maps, whether a
  // process starts, fresh random material and what the ocpasswd tool does.
  datatype Outside = Outside(
    firstOrder: seq<string>,
    secondOrder: seq<string>,
    starts: bool,
    serial: nat,
    cert: string,
    key: string,
    caCert: string,
    caKey: string,
    serverCert: string,
    serverKey: string,
    passwd: Option<string>)

  datatype Request =
    | CreateInstance(inst: InstanceRequest)
    | PatchInstance(name: string, body: Body)
    | DeleteInstance(name: string)
    | CreateClient(name: string, peer: ClientRequest)
    | PatchClient(name: string, cn: string, body: Body)
    | DeleteClient(name: string, cn: string)

  function Target(r: Request): string {
    if r.CreateInstance? then NewInstance(r.inst).name else r.name
  }

  predicate Enumerates(order: seq<string>, keys: set<string>) {
    (set x | x in order) == keys
  }

  // Map iteration visits every client once; a serial was never used before.
  predicate Admissible(w: State, r: Request, o: Outside) {
    && Enumerates(o.firstOrder, ClientsOf(w.mem, Target(r)).Keys)
    && Enumerates(o.secondOrder, ClientsOf(w.mem, Target(r)).Keys)
    && Fresh(w, o.serial)
  }

  predicate Fresh(w: State, serial: nat) {
    forall slot | slot in w.disk.certs :: slot.key != Numerals.Hex(serial)
  }

  // ------------------------------------------------ pieces

  // flushLocked, after the records in memory have been changed.
  function Flush(data: StoreData): seq<Step> {
    [SetMemory(data), WriteTmp(data), RenameTmp]
  }

  // writePerUserConfig.
  function PinCall(name: string, cn: string, ip: string): Call {
    if !GoodName(cn) then Call([], Some(BadPin))
    else if Unpinned(ip) then Call([RemovePin(Slot(name, cn))], None)
    else
      match PinFor(ip)
      case None => Call([], Some(BadPin))
      case Some(text) => Call([WritePin(Slot(name, cn), text)], None)
  }

  function SyncOne(clients: map<string, Client>, name: string, cn: string): seq<Step> {
    if cn in clients && !Unpinned(clients[cn].staticIp) then
      PinCall(name, clients[cn].commonName, clients[cn].staticIp).steps
    else []
  }

  // syncPerUserConfigs: a pin that cannot be written is logged and skipped.
  function SyncPins(clients: map<string, Client>, name: string, order: seq<string>): seq<Step> {
    if order == [] then []
    else SyncOne(clients, name, order[0]) + SyncPins(clients, name, order[1..])
  }

  // renderAndWrite.
  function WriteConfig(d: Dirs, mem: StoreData, rec: Instance, order: seq<string>): Call {
    match Rendered(d, rec)
    case None => Call([], Some(RenderFailed))
    case Some(text) =>
      Call(SyncPins(ClientsOf(mem, rec.name), rec.name, order) + [WriteConf(rec.name, text)], None)
  }

  // startInstance.
  function StartInstance(d: Dirs, mem: StoreData, rec: Instance, order: seq<string>, starts: bool, alive: bool): Call {
    var c := WriteConfig(d, mem, rec, order);
    if c.error.Some? then c
    else Call(c.steps + [StartProcess(rec.name, starts)], if alive || starts then None else Some(StartFailed))
  }

  // EnsureCA.
  function EnsureCa(disk: Disk, name: string, o: Outside): seq<Step> {
    if CaLoads(disk, name) then []
    else [WriteCaCert(name, o.caCert), WriteCaKey(name, o.caKey), WriteCrl(name, {})]
  }

  predicate Ascii(s: string) {
    forall i | 0 <= i < |s| :: s[i] < '\U{0080}'
  }

  // EnsureServerCert: a host that is not ASCII cannot go into a certificate.
  function EnsureServerCert(disk: Disk, rec: Instance, o: Outside): Call {
    if ServerCertThere(disk, rec.name) then Nothing
    else if !Ascii(HostOnly(rec.publicEndpoint)) then Call([], Some(BadHost))
    else Call([WriteServerCert(rec.name, o.serverCert), WriteServerKey(rec.name, o.serverKey)], None)
  }

  // IssueClient.
  function Issue(disk: Disk, name: string, o: Outside): Call {
    if !CaLoads(disk, name) then Call([], Some(NoCa))
    else
      var slot := Slot(name, Numerals.Hex(o.serial));
      Call([WriteCert(slot, o.cert), WriteKey(slot, o.key), NoteIssued(slot, o.cert + o.key + disk.caCert[name])], None)
  }

  // RevokeClient: revoked.json first, then the CRL; nothing at all when the serial is already revoked.
  function Revoke(disk: Disk, name: string, serial: string): Call {
    var revoked := RevokedOf(disk, name);
    if serial in revoked then Call([], None)
    else
      var grown := revoked + {serial};
      if CaLoads(disk, name) then Call([WriteRevoked(name, grown), WriteCrl(name, Numbers(grown))], None)
      else Call([WriteRevoked(name, grown)], Some(NoCa))
  }

  // SetPassword: the external tool rewrites the file or fails.
  function SetPassword(name: string, o: Outside): Call {
    match o.passwd
    case None => Call([], Some(PasswordTool))
    case Some(text) => Call([WritePasswd(name, text)], None)
  }

  // Ocpasswd.DeleteUser.
  function DeletePassword(disk: Disk, name: string, cn: string): seq<Step> {
    var file := PasswdOf(disk, name);
    if cn in Ocpasswd.FileUsers(file) then [WritePasswd(name, Ocpasswd.Deleted(file, cn).value)] else []
  }

  const Nothing := Call([], None)

  // Runs the second part only when the first did not fail.
  function Then(a: Call, b: Call): Call {
    if a.error.Some? then a else Call(a.steps + b.steps, b.error)
  }

  // ------------------------------------------------ the calls

  // Server certificate and config: what stands between the CA and the store.
  function Prepare(d: Dirs, w: State, rec: Instance, o: Outside): Call {
    Then(EnsureServerCert(w.disk, rec, o), WriteConfig(d, w.mem, rec, o.firstOrder))
  }

  function CreateInstancePlan(d: Dirs, w: State, req: InstanceRequest, o: Outside): Call {
    var rec := NewInstance(req);
    if rec.name == "" then Call([], Some(NameRequired))
    else if rec.name in w.mem.instances then Call([], Some(AlreadyExists))
    else if rec.poolCidr == "" then Call([], Some(PoolRequired))
    else
      var ca := if UsesCert(rec.authMode) || req.createCaIfEmpty then EnsureCa(w.disk, rec.name, o) else [];
      var after := PutInstance(w.mem, rec);
      var start := if rec.enabled then
                     StartInstance(d, after, rec, o.secondOrder, o.starts, Alive(w, rec.name)).steps
                   else [];
      Then(Then(Call(ca, None), Prepare(d, w, rec, o)), Call(Flush(after) + start, None))
  }

  function PatchInstancePlan(d: Dirs, w: State, name: string, body: Body, o: Outside): Call {
    if name !in w.mem.instances then Call([], Some(NotFound))
    else
      var before := w.mem.instances[name];
      var rec := Patched(before, body);
      var after := PutInstance(w.mem, rec);
      var process :=
        if !rec.enabled then Call([StopProcess(name)], None)
        else if ListenersDiffer(before, rec) then
          Then(Call([StopProcess(name)], None),
               StartInstance(d, after, rec, o.secondOrder, o.starts, Alive(Stopped(w, name), rec.name)))
        else
          var start := StartInstance(d, after, rec, o.secondOrder, o.starts, Alive(w, rec.name));
          Call(start.steps + (if start.error.None? then [Hangup(name)] else []), None);
      Then(WriteConfig(d, w.mem, rec, o.firstOrder), Then(Call(Flush(after), None), process))
  }

  function DeleteInstancePlan(w: State, name: string): Call {
    if name !in w.mem.instances then Call([], Some(NotFound))
    else Call([StopProcess(name), RemoveConf(name)] + Flush(DropInstance(w.mem, name)), None)
  }

  function NewClient(name: string, cn: string, mode: AuthMode, req: ClientRequest, o: Outside): Client {
    Client(OrString(req.displayName, cn), cn, name, mode, req.staticIp, true, false,
           if UsesCert(mode) then Numerals.Hex(o.serial) else "")
  }

  function PasswordPart(mode: AuthMode, name: string, req: ClientRequest, o: Outside): Call {
    if !UsesPassword(mode) then Nothing
    else if req.password == "" then Call([], Some(PasswordRequired))
    else SetPassword(name, o)
  }

  function CreateClientPlan(w: State, name: string, req: ClientRequest, o: Outside): Call {
    var cn := Text.Trim(req.commonName);
    if name !in w.mem.instances then Call([], Some(NotFound))
    else if cn == "" then Call([], Some(CommonNameRequired))
    else if cn in ClientsOf(w.mem, name) then Call([], Some(AlreadyExists))
    else
      var mode := OrAuth(req.authMode, w.mem.instances[name].authMode);
      var issue := if UsesCert(mode) then Issue(w.disk, name, o) else Nothing;
      var password := PasswordPart(mode, name, req, o);
      var after := PutClient(w.mem, name, NewClient(name, cn, mode, req, o));
      Then(Then(Then(issue, password), PinCall(name, cn, req.staticIp)), Call(Flush(after), None))
  }

  // The new password of a patch body; "" when there is none.
  function NewPassword(body: Body): string {
    StringField(body, "password", "")
  }

  function PatchClientPlan(w: State, name: string, cn: string, body: Body, o: Outside): Call {
    if cn !in ClientsOf(w.mem, name) then Call([], Some(NotFound))
    else
      var c := PatchedClient(ClientsOf(w.mem, name)[cn], body);
      var password := if NewPassword(body) != "" && UsesPassword(c.authMode) then SetPassword(name, o) else Nothing;
      var put := if name in w.mem.instances then Call(Flush(PutClient(w.mem, name, c)), None)
                 else Call([], Some(NotFound));
      Then(Then(password, PinCall(name, cn, c.staticIp)), put)
  }

  function DeleteClientPlan(w: State, name: string, cn: string): Call {
    if cn !in ClientsOf(w.mem, name) then Call([], Some(NotFound))
    else
      var c := ClientsOf(w.mem, name)[cn];
      var revoke := if c.certSerial != "" then
                      Then(Revoke(w.disk, name, c.certSerial), Call([Hangup(name)], None))
                    else Nothing;
      var password := if UsesPassword(c.authMode) then DeletePassword(w.disk, name, cn) else [];
      var unpin := if GoodName(cn) then [RemovePin(Slot(name, cn))] else [];
      Then(revoke, Call(password + unpin + Flush(DropClient(w.mem, name, cn)), None))
  }

  function Plan(d: Dirs, w: State, r: Request, o: Outside): Call {
    match r
    case CreateInstance(req) => CreateInstancePlan(d, w, req, o)
    case PatchInstance(name, body) => PatchInstancePlan(d, w, name, body, o)
    case DeleteInstance(name) => DeleteInstancePlan(w, name)
    case CreateClient(name, req) => CreateClientPlan(w, name, req, o)
    case PatchClient(name, cn, body) => PatchClientPlan(w, name, cn, body, o)
    case DeleteClient(name, cn) => DeleteClientPlan(w, name, cn)
  }

  // ------------------------------------------------ plans by cases

  lemma CreateInstanceCases(d: Dirs, w: State, req: InstanceRequest, o: Outside)
    ensures var rec := NewInstance(req);
            var c := CreateInstancePlan(d, w, req, o);
            if rec.name == "" || rec.name in w.mem.instances || rec.poolCidr == "" then c.steps == [] && c.error.Some?
            else
              var ca := if UsesCert(rec.authMode) || req.createCaIfEmpty then EnsureCa(w.disk, rec.name, o) else [];
              var prepare := Prepare(d, w, rec, o);
              var after := PutInstance(w.mem, rec);
              var start := if rec.enabled then
                             StartInstance(d, after, rec, o.secondOrder, o.starts, Alive(w, rec.name)).steps
                           else [];
              c == if prepare.error.Some? then Call(ca + prepare.steps, prepare.error)
                   else Call(ca + prepare.steps + (Flush(after) + start), None)
  {
    hide Prepare, StartInstance, EnsureCa, NewInstance, PutInstance, Flush, UsesCert, Alive;
  }

  lemma CreateClientCases(w: State, name: string, req: ClientRequest, o: Outside)
    requires name in w.mem.instances && Text.Trim(req.commonName) != ""
    requires Text.Trim(req.commonName) !in ClientsOf(w.mem, name)
    ensures var cn := Text.Trim(req.commonName);
            var mode := OrAuth(req.authMode, w.mem.instances[name].authMode);
            var issue := if UsesCert(mode) then Issue(w.disk, name, o) else Nothing;
            var password := PasswordPart(mode, name, req, o);
            var pin := PinCall(name, cn, req.staticIp);
            var after := PutClient(w.mem, name, NewClient(name, cn, mode, req, o));
            CreateClientPlan(w, name, req, o) ==
              if issue.error.Some? then issue
              else if password.error.Some? then Call(issue.steps + password.steps, password.error)
              else if pin.error.Some? then Call(issue.steps + password.steps + pin.steps, pin.error)
              else Call(issue.steps + password.steps + pin.steps + Flush(after), None)
  {
    hide Issue, PasswordPart, PinCall, PutClient, NewClient, Flush;
  }

  // What CreateClient is about to store.
  function Newcomer(w: State, name: string, req: ClientRequest, o: Outside): Client
    requires name in w.mem.instances
  {
    NewClient(name, Text.Trim(req.commonName), OrAuth(req.authMode, w.mem.instances[name].authMode), req, o)
  }

  lemma RefusedClient(w: State, n: string, req: ClientRequest, o: Outside)
    requires var cn := Text.Trim(req.commonName); n !in w.mem.instances || cn == "" || cn in ClientsOf(w.mem, n)
    ensures CreateClientPlan(w, n, req, o).steps == []
  {
    hide Text.Trim;
  }

  lemma UnknownPatch(w: State, name: string, cn: string, body: Body, o: Outside)
    requires cn !in ClientsOf(w.mem, name)
    ensures PatchClientPlan(w, name, cn, body, o).steps == []
  {
  }

  lemma UnknownDelete(w: State, name: string, cn: string)
    requires cn !in ClientsOf(w.mem, name)
    ensures DeleteClientPlan(w, name, cn).steps == []
  {
  }

  // ------------------------------------------------ requests for a new client

  // The checks of CreateClient that come before anything is written.
  predicate Passes(w: State, name: string, req: ClientRequest) {
    && name in w.mem.instances && Text.Trim(req.commonName) != ""
    && Text.Trim(req.commonName) !in ClientsOf(w.mem, name)
  }

  // It issues a certificate when the mode asks for one and a CA is there.
  predicate Issues(w: State, name: string, req: ClientRequest) {
    && Passes(w, name, req)
    && UsesCert(OrAuth(req.authMode, w.mem.instances[name].authMode)) && CaLoads(w.disk, name)
  }

  // It runs the ocpasswd tool, and the tool does not fail.
  predicate SetsPassword(w: State, name: string, req: ClientRequest, o: Outside) {
    && Passes(w, name, req)
    && var mode := OrAuth(req.authMode, w.mem.instances[name].authMode);
       && UsesPassword(mode) && (UsesCert(mode) ==> CaLoads(w.disk, name))
       && req.password != "" && o.passwd.Some?
  }

  predicate PasswordOk(mode: AuthMode, req: ClientRequest, o: Outside) {
    UsesPassword(mode) ==> req.password != "" && o.passwd.Some?
  }

  predicate PinOk(cn: string, ip: string) {
    GoodName(cn) && (Unpinned(ip) || PinFor(ip).Some?)
  }

  // What must still be right once a certificate has been issued.
  predicate Completes(w: State, name: string, req: ClientRequest, o: Outside)
    requires name in w.mem.instances
  {
    && PasswordOk(OrAuth(req.authMode, w.mem.instances[name].authMode), req, o)
    && PinOk(Text.Trim(req.commonName), req.staticIp)
  }

  /**
   * CreateClient succeeds exactly when its instance exists, its name is new and
   * safe, its address is blank or IPv4, and its CA or password is there.
   */
  lemma CreateClientSucceedsIff(w: State, name: string, req: ClientRequest, o: Outside)
    ensures CreateClientPlan(w, name, req, o).error.None? <==>
              && name in w.mem.instances
              && Text.Trim(req.commonName) !in ClientsOf(w.mem, name)
              && GoodName(Text.Trim(req.commonName))
              && (UsesCert(OrAuth(req.authMode, w.mem.instances[name].authMode)) ==> CaLoads(w.disk, name))
              && PasswordOk(OrAuth(req.authMode, w.mem.instances[name].authMode), req, o)
              && (Text.Trim(req.staticIp) == "" || PinFor(req.staticIp).Some?)
  {
    UnpinnedIff(req.staticIp);
    hide Text.Trim, OrAuth, PinFor, Unpinned, Flush, PutClient, UsesCert, UsesPassword;
    hide Paths.Base, Paths.Clean;
  }

  // ------------------------------------------------ Reconcile

  // The iteration orders met while reconciling, and which processes start.
  datatype Boot = Boot(order: seq<string>, clients: map<string, seq<string>>, starts: set<string>)

  function ClientOrder(b: Boot, name: string): seq<string> {
    if name in b.clients then b.clients[name] else []
  }

  predicate BootAdmissible(mem: StoreData, b: Boot) {
    && Enumerates(b.order, mem.instances.Keys)
    && forall n | n in mem.instances :: Enumerates(ClientOrder(b, n), ClientsOf(mem, n).Keys)
  }

  function ReconcileOne(d: Dirs, mem: StoreData, b: Boot, n: string): seq<Step> {
    if n in mem.instances && mem.instances[n].enabled then
      StartInstance(d, mem, mem.instances[n], ClientOrder(b, n), n in b.starts, false).steps
    else []
  }

  function ReconcilePlan(d: Dirs, mem: StoreData, b: Boot, order: seq<string>): seq<Step> {
    if order == [] then []
    else ReconcileOne(d, mem, b, order[0]) + ReconcilePlan(d, mem, b, order[1..])
  }
}
