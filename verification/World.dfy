/**
 * The state the daemon keeps in step: the record store in memory and on disk,
 * the files derived from it, and the supervised processes. A step is one
 * durable write, one update of memory or one action on a process.
 */
module World {
  import opened Wrappers
  import opened Records
  import opened Config
  import Addresses
  import Ipv4
  import Numerals
  import Paths
  import Text

  // ------------------------------------------------ the record store

  datatype StoreData = StoreData(
    instances: map<string, Instance>,
    clients: map<string, map<string, Client>>)

  const EMPTY_STORE := StoreData(map[], map[])

  function ClientsOf(data: StoreData, name: string): map<string, Client> {
    if name in data.clients then data.clients[name] else map[]
  }

  function PutInstance(data: StoreData, rec: Instance): StoreData {
    StoreData(data.instances[rec.name := rec], data.clients[rec.name := ClientsOf(data, rec.name)])
  }

  function DropInstance(data: StoreData, name: string): StoreData {
    StoreData(data.instances - {name}, data.clients - {name})
  }

  function PutClient(data: StoreData, name: string, c: Client): StoreData {
    data.(clients := data.clients[name := ClientsOf(data, name)[c.commonName := c]])
  }

  function DropClient(data: StoreData, name: string, cn: string): StoreData {
    if name in data.clients then data.(clients := data.clients[name := data.clients[name] - {cn}]) else data
  }

  // ------------------------------------------------ files

  // A file that belongs to one instance: a pin (key = common name) or a client certificate (key = hex serial).
  datatype Slot = Slot(instance: string, key: string)

  datatype TmpFile = Torn | Whole(data: StoreData)

  datatype Disk = Disk(
    state: Option<StoreData>,
    tmp: Option<TmpFile>,
    conf: map<string, string>,
    pins: map<Slot, string>,
    caCert: map<string, string>,
    caKey: map<string, string>,
    serverCert: map<string, string>,
    serverKey: map<string, string>,
    revoked: map<string, set<string>>,
    crl: map<string, set<int>>,
    certs: map<Slot, string>,
    keys: map<Slot, string>,
    passwd: map<string, string>)

  // state.Open: an absent file is an empty store; the temporary file is never read.
  function Open(disk: Disk): StoreData {
    match disk.state
    case None => EMPTY_STORE
    case Some(data) => data
  }

  // EnsureServerCert finds nothing to do.
  predicate ServerCertThere(disk: Disk, name: string) {
    name in disk.serverCert && name in disk.serverKey
  }

  // loadCA succeeds: both files are there.
  predicate CaLoads(disk: Disk, name: string) {
    name in disk.caCert && name in disk.caKey
  }

  function RevokedOf(disk: Disk, name: string): set<string> {
    if name in disk.revoked then disk.revoked[name] else {}
  }

  function CrlOf(disk: Disk, name: string): set<int> {
    if name in disk.crl then disk.crl[name] else {}
  }

  function PasswdOf(disk: Disk, name: string): Option<string> {
    if name in disk.passwd then Some(disk.passwd[name]) else None
  }

  // The serial numbers writeCRL lists: an entry whose key is not a hex number is skipped.
  function Numbers(serials: set<string>): set<int> {
    set h | h in serials && Numerals.ParseHex(h).Some? :: Numerals.ParseHex(h).value
  }

  lemma NoNumbers()
    ensures Numbers({}) == {}
  {
  }

  // ------------------------------------------------ processes

  // bound: the listener lines bound at start. conf, crl: what was last read, at start or on SIGHUP.
  datatype Process = Process(pid: nat, alive: bool, bound: Lines, conf: string, crl: set<int>)

  // issued is history: the BundlePEM of every certificate at the moment it was issued.
  datatype State = State(
    mem: StoreData,
    disk: Disk,
    procs: map<string, Process>,
    nextPid: nat,
    issued: map<Slot, string>)

  predicate Alive(w: State, name: string) {
    name in w.procs && w.procs[name].alive
  }

  // The daemon just started: the store is read back and nothing is supervised.
  function Down(w: State, disk: Disk): State {
    State(Open(disk), disk, map[], w.nextPid, w.issued)
  }

  // ------------------------------------------------ steps

  datatype Step =
    | WriteConf(name: string, text: string)
    | RemoveConf(name: string)
    | WritePin(slot: Slot, text: string)
    | RemovePin(slot: Slot)
    | WriteCaCert(name: string, pem: string)
    | WriteCaKey(name: string, pem: string)
    | WriteServerCert(name: string, pem: string)
    | WriteServerKey(name: string, pem: string)
    | WriteRevoked(name: string, serials: set<string>)
    | WriteCrl(name: string, numbers: set<int>)
    | WriteCert(slot: Slot, pem: string)
    | WriteKey(slot: Slot, pem: string)
    | NoteIssued(slot: Slot, bundle: string)
    | WritePasswd(name: string, text: string)
    | SetMemory(data: StoreData)
    | WriteTmp(data: StoreData)
    | RenameTmp
    | StartProcess(name: string, starts: bool)
    | StopProcess(name: string)
    | Hangup(name: string)

  function ConfOnDisk(disk: Disk, name: string): string {
    if name in disk.conf then disk.conf[name] else ""
  }

  function ApplyDisk(disk: Disk, s: Step): Disk {
    match s
    case WriteConf(name, text) => disk.(conf := disk.conf[name := text])
    case RemoveConf(name) => disk.(conf := disk.conf - {name})
    case WritePin(slot, text) => disk.(pins := disk.pins[slot := text])
    case RemovePin(slot) => disk.(pins := disk.pins - {slot})
    case WriteCaCert(name, pem) => disk.(caCert := disk.caCert[name := pem])
    case WriteCaKey(name, pem) => disk.(caKey := disk.caKey[name := pem])
    case WriteServerCert(name, pem) => disk.(serverCert := disk.serverCert[name := pem])
    case WriteServerKey(name, pem) => disk.(serverKey := disk.serverKey[name := pem])
    case WriteRevoked(name, serials) => disk.(revoked := disk.revoked[name := serials])
    case WriteCrl(name, numbers) => disk.(crl := disk.crl[name := numbers])
    case WriteCert(slot, pem) => disk.(certs := disk.certs[slot := pem])
    case WriteKey(slot, pem) => disk.(keys := disk.keys[slot := pem])
    case WritePasswd(name, text) => disk.(passwd := disk.passwd[name := text])
    case WriteTmp(data) => disk.(tmp := Some(Whole(data)))
    case RenameTmp =>
      if disk.tmp.Some? && disk.tmp.value.Whole? then disk.(state := Some(disk.tmp.value.data), tmp := None) else disk
    case _ => disk
  }

  // Each of these files is written by one kind of step.
  lemma OwnCerts(disk: Disk, s: Step)
    requires !s.WriteCert?
    ensures ApplyDisk(disk, s).certs == disk.certs
  {
  }

  lemma OwnRevoked(disk: Disk, s: Step)
    requires !s.WriteRevoked?
    ensures ApplyDisk(disk, s).revoked == disk.revoked
  {
  }

  lemma OwnPasswords(disk: Disk, s: Step)
    requires !s.WritePasswd?
    ensures ApplyDisk(disk, s).passwd == disk.passwd
  {
  }

  lemma OwnState(disk: Disk, s: Step)
    requires !s.RenameTmp?
    ensures ApplyDisk(disk, s).state == disk.state
  {
  }

  // Supervisor.Start, Stop and Reload on the process table.
  function Started(w: State, name: string, starts: bool): State {
    if Alive(w, name) || !starts then w
    else
      var conf := ConfOnDisk(w.disk, name);
      w.(procs := w.procs[name := Process(w.nextPid, true, Bound(conf), conf, CrlOf(w.disk, name))],
         nextPid := w.nextPid + 1)
  }

  function Reloaded(w: State, name: string): State {
    if Alive(w, name) then
      w.(procs := w.procs[name := w.procs[name].(conf := ConfOnDisk(w.disk, name), crl := CrlOf(w.disk, name))])
    else w
  }

  function Stopped(w: State, name: string): State {
    w.(procs := w.procs - {name})
  }

  function Died(w: State, name: string): State {
    if name in w.procs then w.(procs := w.procs[name := w.procs[name].(alive := false)]) else w
  }

  function Apply(w: State, s: Step): State {
    match s
    case SetMemory(data) => w.(mem := data)
    case NoteIssued(slot, bundle) => w.(issued := w.issued[slot := bundle])
    case StartProcess(name, starts) => Started(w, name, starts)
    case StopProcess(name) => Stopped(w, name)
    case Hangup(name) => Reloaded(w, name)
    case _ => w.(disk := ApplyDisk(w.disk, s))
  }

  function Exec(w: State, steps: seq<Step>): State
    decreases |steps|
  {
    if steps == [] then w else Exec(Apply(w, steps[0]), steps[1..])
  }

  lemma {:induction false} ExecAppend(w: State, a: seq<Step>, b: seq<Step>)
    ensures Exec(w, a + b) == Exec(Exec(w, a), b)
    decreases |a|
  {
    if a == [] {
      assert a + b == b;
    } else {
      assert (a + b)[1..] == a[1..] + b;
      ExecAppend(Apply(w, a[0]), a[1..], b);
    }
  }

  lemma ExecNone(w: State)
    ensures Exec(w, []) == w
  {
  }

  lemma ExecOne(w: State, s: Step)
    ensures Exec(w, [s]) == Apply(w, s)
  {
    assert [s][1..] == [];
  }

  lemma ExecTwo(w: State, a: Step, b: Step)
    ensures Exec(w, [a, b]) == Apply(Apply(w, a), b)
  {
    hide *;
    assert [a, b] == [a] + [b];
    ExecAppend(w, [a], [b]);
    ExecOne(w, a);
    ExecOne(Apply(w, a), b);
  }

  lemma ExecThree(w: State, a: Step, b: Step, c: Step)
    ensures Exec(w, [a, b, c]) == Apply(Apply(Apply(w, a), b), c)
  {
    hide *;
    assert [a, b, c] == [a, b] + [c];
    ExecAppend(w, [a, b], [c]);
    ExecTwo(w, a, b);
    ExecOne(Apply(Apply(w, a), b), c);
  }

  // ------------------------------------------------ the pieces whose text does not matter to the machine

  // The config file of a record, or None when it does not render.
  function Rendered(d: Dirs, rec: Instance): Option<string> {
    RenderRecord(d, rec)
  }

  // The content of a pin file, or None when the address is no IPv4 address.
  function PinFor(ip: string): Option<string> {
    match Addresses.To4(Text.Trim(ip))
    case None => None
    case Some(q) => Some(PinText(Ipv4.ShowQuad(q)))
  }

  predicate GoodName(cn: string) {
    Paths.ValidPerUserName(cn)
  }

  predicate Unpinned(ip: string) {
    Text.Blank(ip)
  }

  lemma UnpinnedIff(ip: string)
    ensures Unpinned(ip) <==> Text.Trim(ip) == ""
  {
    hide Text.Trim;
  }

  // What ocserv finds in the pin file of an address.
  function PinFile(address: string): string {
    "# Generated by openconnectd. " + "Do not edit by hand." + "\n" + "explicit-ipv4 = " + address + "\n"
  }

  lemma PinTextIs(address: string)
    ensures PinText(address) == PinFile(address)
  {
    assert "# Generated by openconnectd. Do not edit by hand.\n"
        == "# Generated by openconnectd. " + "Do not edit by hand." + "\n";
  }

  /** The pin of a dotted address holds that text exactly, minus surrounding white space. */
  lemma PinIsTheAddress(ip: string)
    requires Ipv4.ParseQuad(Text.Trim(ip)).Some?
    ensures PinFor(ip) == Some(PinFile(Text.Trim(ip)))
  {
    hide PinText, PinFile;
    PinTextIs(Text.Trim(ip));
    Addresses.DottedRead(Text.Trim(ip));
    Ipv4.QuadCanonical(Text.Trim(ip));
  }

  /** The pin of an IPv6 literal that maps an IPv4 address holds that address in dotted form. */
  lemma PinOfMapped(q: Ipv4.Quad)
    ensures PinFor("::ffff:" + Ipv4.ShowQuad(q)) == Some(PinFile(Ipv4.ShowQuad(q)))
  {
    hide Addresses.To4, Ipv4.ShowQuad, PinText, PinFile;
    PinTextIs(Ipv4.ShowQuad(q));
    var s := "::ffff:" + Ipv4.ShowQuad(q);
    Ipv4.QuadTrimmed(q);
    assert s[0] == ':' && s[|s| - 1] == Ipv4.ShowQuad(q)[|Ipv4.ShowQuad(q)| - 1];
    Text.TrimmedIsFixed(s);
    Addresses.MappedRead(q);
  }
}
