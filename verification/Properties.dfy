/** What the agreement of files, records and processes means for a user of the daemon. */
module Properties {
  import opened Wrappers
  import opened Records
  import opened Config
  import opened World
  import opened Plans
  import opened Durable
  import opened Crash
  import opened Recovery
  import opened SteadyState
  import opened SteadyInstances
  import opened SteadyClients
  import opened Runs
  import opened Processes
  import Numerals
  import Text

  // ------------------------------------------------ profiles

  // ClientBundle: certificate, key and CA read back from disk.
  function ClientBundle(disk: Disk, slot: Slot): Option<string> {
    if slot in disk.certs && slot in disk.keys && slot.instance in disk.caCert then
      Some(disk.certs[slot] + disk.keys[slot] + disk.caCert[slot.instance])
    else None
  }

  function ProfileHeader(rec: Instance, cn: string): string {
    "# openconnect --user=" + cn + " --servercert=pin-sha256 " + OrString(rec.publicEndpoint, rec.listen) + "\n"
    + "# OpenConnect/AnyConnect profile for " + Quote(cn) + " on instance " + Quote(rec.name) + "\n"
  }

  // What a profile starts with.
  function ProfileHead(rec: Instance, cn: string): string {
    "# openconnect " + "--user=" + cn + " --servercert=" + "pin-sha256 "
    + (if Text.Trim(rec.publicEndpoint) == "" then rec.listen else rec.publicEndpoint) + "\n"
    + "# OpenConnect/" + "AnyConnect profile for " + Quote(cn) + " on instance " + Quote(rec.name) + "\n"
  }

  lemma HeadTexts()
    ensures "# openconnect --user=" == "# openconnect " + "--user="
    ensures " --servercert=pin-sha256 " == " --servercert=" + "pin-sha256 "
  {
  }

  lemma ProfileText()
    ensures "# OpenConnect/AnyConnect profile for " == "# OpenConnect/" + "AnyConnect profile for "
  {
  }

  lemma HeaderIsHead(rec: Instance, cn: string)
    ensures ProfileHeader(rec, cn) == ProfileHead(rec, cn)
  {
    hide Quote, Text.Trim;
    HeadTexts();
    ProfileText();
    var user, cert := "# openconnect --user=", " --servercert=pin-sha256 ";
    var profile := "# OpenConnect/AnyConnect profile for ";
    var endpoint := OrString(rec.publicEndpoint, rec.listen);
    assert ProfileHeader(rec, cn) == user + cn + cert + endpoint + "\n"
        + (profile + Quote(cn) + " on instance " + Quote(rec.name) + "\n");
  }

  lemma PasswordNote(cn: string)
    ensures "# auth: password (username " + cn + ")\n" == "# auth: password " + "(username " + cn + ")\n"
  {
    assert "# auth: password (username " == "# auth: password " + "(username ";
  }

  // ClientConfig; the instance name of the path is the record's own name.
  function ClientConfig(w: State, name: string, cn: string): Option<string> {
    if name !in w.mem.instances || cn !in ClientsOf(w.mem, name) then None
    else
      var header := ProfileHeader(w.mem.instances[name], cn);
      var c := ClientsOf(w.mem, name)[cn];
      if c.certSerial != "" then
        match ClientBundle(w.disk, Slot(name, c.certSerial))
        case None => None
        case Some(bundle) => Some(header + bundle)
      else Some(header + "# auth: password (username " + cn + ")\n")
  }

  lemma BundleKept(w: State, slot: Slot)
    requires IssuedKept(w.disk, w.issued) && slot in w.issued
    ensures ClientBundle(w.disk, slot) == Some(w.issued[slot])
  {
    hide HexKey;
  }

  /**
   * A bundle reassembled from disk is, byte for byte, the one handed out when
   * the certificate was issued, whatever happened in between: other clients and
   * instances created, deleted and created again, restarts, crashes.
   */
  lemma BundleForever(d: Dirs, w: State, events: seq<Event>, slot: Slot)
    requires Sound(d, w) && Synced(w) && IsRun(d, w, events) && slot in w.issued
    ensures ClientBundle(After(d, w, events).disk, slot) == Some(w.issued[slot]) == ClientBundle(w.disk, slot)
  {
    hide After, IsRun, GoodData, IssuedKept, RevokedIssued, CrlWithin, ClientBundle, RevokedOf;
    RunSound(d, w, events);
    BundleKept(w, slot);
    BundleKept(After(d, w, events), slot);
  }

  /** CreateClient returns the very bundle that is then on disk. */
  lemma IssuedBundleIsReturned(d: Dirs, w: State, name: string, o: Outside)
    requires Sound(d, w) && Fresh(w, o.serial) && Issue(w.disk, name, o).error.None?
    ensures var v := Exec(w, Issue(w.disk, name, o).steps);
            var slot := Slot(name, Numerals.Hex(o.serial));
            && slot in v.issued
            && v.issued[slot] == o.cert + o.key + w.disk.caCert[name]
            && ClientBundle(v.disk, slot) == Some(v.issued[slot])
  {
    hide SafePlan, GoodData, IssuedKept, RevokedIssued, CrlWithin, Numerals.Hex, Fresh;
    IssueSafe(d, w, name, o, w.mem, {});
  }

  /**
   * After any run, crashes included, the profile of every stored client can be
   * produced, and a certificate profile carries its issued bundle.
   */
  lemma ProfileAvailable(d: Dirs, w: State, events: seq<Event>, name: string, cn: string)
    requires Sound(d, w) && Synced(w) && IsRun(d, w, events)
    requires cn in ClientsOf(After(d, w, events).mem, name)
    ensures var v := After(d, w, events);
            var c := ClientsOf(v.mem, name)[cn];
            && name in v.mem.instances
            && ClientConfig(v, name, cn).Some?
            && (c.certSerial != "" ==>
                  && Slot(name, c.certSerial) in v.issued
                  && ClientConfig(v, name, cn).value
                     == ProfileHead(v.mem.instances[name], cn) + v.issued[Slot(name, c.certSerial)])
            && (c.certSerial == "" ==>
                  ClientConfig(v, name, cn).value
                  == ProfileHead(v.mem.instances[name], cn) + "# auth: password " + "(username " + cn + ")\n")
  {
    hide *;
    RunSound(d, w, events);
    var v := After(d, w, events);
    StoredName(d, v, name, cn);
    var c := ClientsOf(v.mem, name)[cn];
    if c.certSerial != "" {
      SoundKept(d, v);
      BundleKept(v, Slot(name, c.certSerial));
    }
    ProfileIs(v, name, cn);
  }

  lemma SoundKept(d: Dirs, w: State)
    requires Sound(d, w)
    ensures IssuedKept(w.disk, w.issued)
  {
    hide GoodData, IssuedKept, RevokedIssued, CrlWithin;
  }

  // The profile of a client, by its kind.
  lemma ProfileIs(w: State, name: string, cn: string)
    requires name in w.mem.instances && cn in ClientsOf(w.mem, name)
    ensures var c, head := ClientsOf(w.mem, name)[cn], ProfileHead(w.mem.instances[name], cn);
            var bundle := ClientBundle(w.disk, Slot(name, c.certSerial));
            && (c.certSerial != "" && bundle.Some? ==> ClientConfig(w, name, cn) == Some(head + bundle.value))
            && (c.certSerial == "" ==>
                  ClientConfig(w, name, cn) == Some(head + "# auth: password " + "(username " + cn + ")\n"))
  {
    hide ProfileHeader, ProfileHead, ClientBundle, ClientsOf;
    var head := ProfileHead(w.mem.instances[name], cn);
    HeaderIsHead(w.mem.instances[name], cn);
    PasswordNote(cn);
    assert head + "# auth: password (username " + cn + ")\n" == head + ("# auth: password (username " + cn + ")\n");
    assert head + ("# auth: password " + "(username " + cn + ")\n")
        == head + "# auth: password " + "(username " + cn + ")\n";
  }

  // ------------------------------------------------ pins

  /**
   * A CreateClient that succeeds stores its client and nothing else, touches no
   * process, and leaves exactly its pin or none.
   */
  lemma CreateClientStores(w: State, name: string, req: ClientRequest, o: Outside)
    requires CreateClientPlan(w, name, req, o).error.None?
    ensures name in w.mem.instances
    ensures var v := Exec(w, CreateClientPlan(w, name, req, o).steps);
            var c := Newcomer(w, name, req, o);
            && v.mem == PutClient(w.mem, name, c) && v.procs == w.procs
            && GoodName(c.commonName)
            && Repinned(w.disk.pins, v.disk.pins, Slot(name, c.commonName), c.staticIp)
  {
    hide *;
    var front := CreatedParts(w, name, req, o);
    var c := Newcomer(w, name, req, o);
    var after := PutClient(w.mem, name, c);
    var pin := PinCall(name, c.commonName, c.staticIp);
    var u := Exec(w, front);
    SideKeepsCore(w, front);
    SamePins(w, u);
    PinResult(u, name, c.commonName, c.staticIp);
    PinQuiet(name, c.commonName, c.staticIp);
    FlushResult(Exec(u, pin.steps), after);
    ExecAppend(w, front, pin.steps + Flush(after));
    ExecAppend(u, pin.steps, Flush(after));
    CommittedParts(Exec(u, pin.steps), after);
    SeeCreateClient(w, name, req, o);
    SeenProcs(w, Exec(w, CreateClientPlan(w, name, req, o).steps));
  }

  lemma SamePins(w: State, v: State)
    requires SameCore(w, v)
    ensures v.disk.pins == w.disk.pins
  {
  }

  lemma CommittedParts(w: State, data: StoreData)
    ensures var v := Committed(w, data); v.mem == data && v.disk.pins == w.disk.pins
  {
  }

  lemma SeenProcs(w: State, v: State)
    requires See(v) == See(w)
    ensures v.procs == w.procs
  {
  }

  // The parts of a CreateClient that succeeds.
  lemma CreatedParts(w: State, name: string, req: ClientRequest, o: Outside) returns (front: seq<Step>)
    requires CreateClientPlan(w, name, req, o).error.None?
    ensures name in w.mem.instances && AllSide(front)
    ensures var c := Newcomer(w, name, req, o);
            && PinCall(name, c.commonName, c.staticIp).error.None?
            && CreateClientPlan(w, name, req, o).steps
               == front + (PinCall(name, c.commonName, c.staticIp).steps + Flush(PutClient(w.mem, name, c)))
  {
    hide Exec, Issue, PasswordPart, PinCall, Flush, PutClient, Side;
    var mode := OrAuth(req.authMode, w.mem.instances[name].authMode);
    var issue := if UsesCert(mode) then Issue(w.disk, name, o) else Nothing;
    var password := PasswordPart(mode, name, req, o);
    front := issue.steps + password.steps;
    IssueSide(w.disk, name, o);
    PasswordSide(mode, name, req, o);
  }

  /**
   * A client created under a name that was used before, even by an instance since
   * deleted, never inherits the old pin.
   */
  lemma NoInheritedPin(w: State, name: string, req: ClientRequest, o: Outside)
    requires CreateClientPlan(w, name, req, o).error.None?
    ensures var v := Exec(w, CreateClientPlan(w, name, req, o).steps);
            var cn := Text.Trim(req.commonName);
            && cn in ClientsOf(v.mem, name) && ClientsOf(v.mem, name)[cn].staticIp == req.staticIp
            && GoodName(cn)
            && PinExact(v.disk.pins, Slot(name, cn), req.staticIp)
  {
    hide CreateClientPlan, Exec, PinExact, GoodName, Text.Trim, OrAuth, SameAt;
    CreateClientStores(w, name, req, o);
  }

  // ------------------------------------------------ rendering

  /** In every state a run can reach, crashes included, no start of a stored instance fails at rendering. */
  lemma NeverFailsAtRendering(d: Dirs, w: State, events: seq<Event>, name: string, order: seq<string>)
    requires Sound(d, w) && Synced(w) && IsRun(d, w, events)
    requires name in After(d, w, events).mem.instances
    ensures var v := After(d, w, events); WriteConfig(d, v.mem, v.mem.instances[name], order).error.None?
  {
    hide After, IsRun, Accumulates, AllRevoked, Dropped, Rendered, IssuedKept, RevokedIssued, CrlWithin, GoodClient;
    RunSound(d, w, events);
    RenderedConfig(d, After(d, w, events).mem, After(d, w, events).mem.instances[name], order);
  }

  // ------------------------------------------------ the store file

  /** Open reads the old store until the rename and the new one after it; a torn temporary file changes nothing. */
  lemma FlushAtomic(w: State, data: StoreData, k: nat, torn: bool)
    requires k <= |Flush(data)|
    ensures Open(CrashDisk(w, Flush(data), k, torn)) == if k < |Flush(data)| then Open(w.disk) else data
  {
    hide Exec;
    var steps := Flush(data);
    FlushResult(w, data);
    ExecNone(w);
    assert steps[..0] == [] && steps[..1] == [SetMemory(data)];
    assert steps[..2] == [SetMemory(data)] + [WriteTmp(data)] && steps[..3] == steps;
    ExecOne(w, SetMemory(data));
    ExecAppend(w, [SetMemory(data)], [WriteTmp(data)]);
    ExecOne(Apply(w, SetMemory(data)), WriteTmp(data));
  }
}
