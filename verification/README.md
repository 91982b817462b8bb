# openconnectd: a verified model

openconnectd manages ocserv instances: it keeps a record store, renders one
`ocserv.conf` per instance, pins client addresses in per-user files, runs a
small certificate authority with a revocation list, maintains ocpasswd files
and supervises one process per instance. These pieces must agree after every
API call, and must be put right again after a crash. This project models that
machine and the text formats around it, and proves what keeps them in agreement.

## How the model is built

**State and steps** (`World`, `Plans`). The state is the store in memory, every
file on disk, the process table, and the history of issued bundles. Config
files are texts; a process carries the listener *lines* it bound at start and
the config and CRL it last read. Each API call is a *plan*: the list of the
writes and process actions the code performs on these files, in its order, with
its early returns and errors. Every `os.WriteFile`, `os.Remove` and `os.Rename`
is one step.

**Objects** (`Daemon`, `Management`). `Store`, `Pki`, `Supervisor` and `Manager`
are classes with the fields the program updates in place. A ghost journal
records each step when it happens, and every method is proved to append exactly
the steps of its plan, to return its plan's error, and to end in the plan's
state. Results about plans are therefore results about the methods.

**Three kinds of truth.**

* `Durable.Sound` holds at *every* step, and so after a crash anywhere: the
  store file is whole and well-formed, all its records render, every issued
  bundle is on disk, revoked serials were issued, and the CRL lists revoked
  serials only.
* `Processes.AllServing` holds between calls in *every* run, crashes included:
  each live process serves its stored, enabled instance on the current config
  and CRL, with the listener settings it was started with.
* `SteadyState.Steady` holds between calls in every run without a crash, while
  processes die and fail to start at will: config files, pins, CRL and
  certificates agree *exactly* with the records.

`Runs` and `Service` close these under arbitrary sequences of calls, process
deaths, restarts of the daemon, reconciliations and crashes. `Recovery` shows
what a reboot with `Reconcile` restores, `Revocation` follows the CRL, `Writes`
says in which files a call stopped anywhere can have written, `Ledger` accounts
for every certificate there is and `Passwords` for the users in the password
files, `Requests` says field by field what a request body leaves in the store,
`Properties` spells out what this means to a user, and `Progress` says exactly
when calls succeed and exhibits a run from an untouched host to a running
instance with a user.

**Text cores.** `Cidr`/`Ipv4`/`Addresses` (pools and static addresses),
`Endpoints` (listen addresses and public endpoints), `Config`/`Sockets` (the
rendered file and the listeners it opens), `ConfigReading`/`Quoting` (readers
that find every setting of the record in that file again), `Ordering`
(canonical routes), `Paths` (pin paths), `Ocpasswd` (the password file),
`TrailingCommas`/`BanList`/`BanPrinting` (occtl's almost-JSON), `BanMerge`,
`Labels`/`Exposition` (the Prometheus text).

## Assumptions

* API calls run one after another; the program holds no lock across a call.
* The serial number of a new certificate is on no certificate file yet.
* Instance names are safe path elements without `/` (they are not validated).
* Ordinary file operations succeed; at a crash only the store's temporary file may be torn.
* CA files, once written, load again. `state.json` reads back as what was written.
* ocserv takes a line for a listener setting when the text before its first `=`, trimmed,
  is `tcp-port`, `udp-port`, `listen-host` or `listen-proxy-proto`.
* Iteration orders of maps, whether a process starts, fresh key material, the orders
  sorting leaves among equals and the effect of the ocpasswd tool are inputs, and
  everything is proved for all of them. Only `Passwords.RunLeftovers` assumes something
  of the tool: that it adds the user it is asked to add and no other.
* A run starts from an empty store (`SteadyState.EmptyIsSteady`) or any state satisfying the invariant.

## Where the code does less than one might expect

* **A listener can hide in another setting.** DNS servers, routes, camouflage texts, the
  IPv6 pool and the endpoint host are printed as they come, so a value with a newline can
  bring in a `tcp-port` line. `listenersDiffer` does not look there: a patch keeps the
  process by SIGHUP although the new file opens other sockets.
  `Sockets.RenderedBinds` says which lines any such file opens. The sockets of a kept
  process fit its new file if and only if the record it was started from and the new one
  give the same lines, hidden ones included (`Service.KeptSocketsIff`); when one of the
  two hides nothing, if and only if the other hides nothing, and `Sockets.CleanIff`
  reduces that to a check of the request. `Service.HiddenPort` is a patch that fails, and
  `Service.HiddenPortStays` the opposite failure: cleaning a record keeps the process on
  the port it once hid. `Service.RunListeners` shows that all is well while no record
  hides a listener.
* **A CRL can fall behind `revoked.json`.** `RevokeClient` returns early when the
  serial is already recorded, so a crash between its two writes is not repaired
  by deleting the client again (`Revocation.CrlStaysBehind`), only by the next revocation of
  another certificate (`Revocation.NextRevocationRepairs`). `Revocation.RunCrlIff` gives the
  exact condition over whole runs.
* **A CRL may never be seeded.** The comment in `EnsureCA` promises that ocserv
  always has a CRL to read; `Revocation.CrlSeededIff` gives the one crash position
  after which this is false.
* **Certificates can be orphaned.** Deleting an instance revokes nothing, so the unrevoked
  certificates of its clients stay valid and belong to nobody (`Ledger.DeleteOrphans`).
  CreateClient issues first and checks later: it orphans a certificate exactly when the
  request then turns out to have an unsafe common name, such as `a/b`, a bad address, or a
  missing or refused password (`Ledger.CreateOrphansIff`; `Progress.FailingClient` shows
  two such requests). A crash inside CreateClient after its first write does the same, and
  one inside DeleteClient leaves a revoked certificate with a stored client until the
  deletion is repeated. `Ledger.RunAccounted` adds these up over every run, crashes
  included: there are no other ways.
* **Passwords outlive their clients.** Deleting an instance leaves its password file to the
  next one of that name (`Passwords.PasswordsOutliveInstance`), and a CreateClient that
  sets the password and then fails on the name or address, or is cut by a crash, leaves a
  user that no record lists. `Passwords.RunLeftovers` says exactly which users these are.
* **A host that is not ASCII** makes CreateInstance fail unless a server certificate is
  already there (`Progress.CreateInstanceSucceedsIff`).
* **One pass of the comma sanitiser is enough exactly when** no deleted comma
  follows another across white space (`TrailingCommas.OnePassIsEnoughIff`).
* **Rewriting an ocpasswd file** preserves the remaining lines exactly when none
  of them ends in a second carriage return (`Ocpasswd.DeleteKeepsOtherLines`).
* docs/API.md says that PATCH on an instance always SIGHUP-reloads, and lists fewer
  fields than the code accepts. The code restarts when a listener setting changes, and
  also patches `tcp_port` and `proxy_proto`; the model follows the code.

## Model

| member | source | states |
|---|---|---|
| Management.Manager.Handle | internal/ocserv/manager.go:56-285 | any API call on the objects returns its plan's error, makes exactly its plan's writes and process actions in order, ends in that state, and keeps the steady state |
| Management.Manager.CreateInstance | internal/ocserv/manager.go:56-111 | checks, CA, server certificate, render before store, store before start: the steps and error of its plan |
| Management.Manager.PatchInstance | internal/ocserv/manager.go:140-171 | render first, then store, then stop, restart or reload: the steps and error of its plan |
| Management.Manager.DeleteInstance | internal/ocserv/manager.go:130-137 | stop, remove the config, drop the records |
| Management.Manager.CreateClient | internal/ocserv/manager.go:175-226 | certificate, password, pin, store, in this order, stopping at the first error with what was already done |
| Management.Manager.PatchClient | internal/ocserv/manager.go:255-285 | password, pin, store, in this order, stopping at the first error |
| Management.Manager.DeleteClient | internal/ocserv/manager.go:235-253 | revocation, reload, password, pin, store, in this order; nothing is dropped when revocation fails |
| Management.Manager.Reconcile | internal/ocserv/manager.go:43-52 | starts every enabled stored instance, in whatever order the store lists them |
| Management.Manager.RenderAndWrite | internal/ocserv/manager.go:438-463 | on a render error nothing is written; otherwise pins are rebuilt, then the config is written |
| Management.Manager.SyncPerUserConfigs | internal/ocserv/manager.go:590-600 | one pin per client with an address, skipping those that cannot be written |
| Management.Manager.WritePerUserConfig | internal/ocserv/manager.go:562-584 | an unsafe name or an address that is no IPv4 literal is refused without a write; a blank address removes the pin |
| Daemon.Store.FlushLocked | internal/state/store.go:152-165 | temporary file, then rename: the file then holds exactly the records in memory |
| Daemon.Store.PutClient | internal/state/store.go:103-114 | refused for an unknown instance without any write; otherwise exactly this client changes |
| Daemon.Store.PutInstance | internal/state/store.go:66-74 | stores the record, keeps the clients of an existing instance and gives a new one an empty client map |
| Daemon.Supervisor.Start | internal/ocserv/process.go:32-55 | a live process is left alone; a new one binds the listener lines of the config text on disk and reads the CRL |
| Daemon.Supervisor.Reload | internal/ocserv/process.go:58-66 | config and CRL are read again, listeners and process stay |
| Daemon.Pki.RevokeClient | internal/ocserv/pki.go:181-194 | nothing for a serial already revoked; otherwise revoked.json first, then the CRL |
| Daemon.Pki.ListEntries | internal/ocserv/pki.go:274-301 | the loop lists exactly the numbers of the keys that read as hex |
| Daemon.Pki.IssueClient | internal/ocserv/pki.go:105-157 | refused without a write for a blank common name or without a CA; otherwise certificate and key are on disk and the bundle is theirs with the CA |
| Daemon.Pki.EnsureServerCert | internal/ocserv/pki.go:209-241 | nothing when both files are there; a host that is not ASCII is refused without a write; otherwise certificate, then key |
| Runs.RunSound | internal/ocserv/manager.go:43-285 | in every run with crashes anywhere: files sound, every certificate lost with a deleted client revoked, no revocation and no issued bundle ever undone |
| Runs.RunSteady | internal/ocserv/manager.go:43-285 | in every run without crashes: configs, pins, CRL and certificates agree exactly with the records |
| Service.RunServes | internal/ocserv/manager.go:43-285 | in every run, crashes included: each live process belongs to a stored enabled instance, its config file is the render of the record, it has read that file and the current CRL, and its listener settings are those it was started with |
| Service.RunListeners | internal/ocserv/manager.go:140-171 | while no stored record hides a listener line, every live process has bound exactly the listener lines of its config file, crashes or not |
| Service.RunListens | internal/ocserv/manager.go:465-480 | so each live process listens where its stored record says: TCP on its own port or that of the listen address, UDP on the latter with DTLS, then the local address and the proxy protocol |
| Service.CallServing | internal/ocserv/manager.go:56-285 | every call, failed or not, keeps all processes serving, whatever earlier crashes left in the files |
| Service.ReconcileServing | internal/ocserv/manager.go:43-52 | reconciling leaves serving processes alone, and what it starts serves |
| Runs.RunRecovers | internal/ocserv/manager.go:43-52 | after any run and a Reconcile every enabled instance has the config and pins its record asks for, and the records are untouched |
| Runs.NextSound | internal/ocserv/manager.go:43-285 | one event of any kind, crash included, keeps soundness and revokes what it drops |
| Runs.CallSteady | internal/ocserv/manager.go:56-285 | every API call, failed or not, keeps files, records and certificates in exact agreement |
| Runs.ReconcileSteady | internal/ocserv/manager.go:43-52 | reconciling keeps exact agreement whichever processes fail to start |
| Runs.RefusedPatch | internal/ocserv/manager.go:140-152 | a patch is refused exactly for an unknown instance or a record that does not render, and then takes no step at all |
| Requests.PatchInstanceStores | internal/ocserv/manager.go:617-653 | a patch that is not refused stores, on disk and in memory, exactly the record its body asks for: each of nine JSON keys of the right type sets its own field, a number is cut toward zero, lists keep their texts in order, anything else keeps the field, and no other instance or client changes |
| Progress.PatchMovesPort | internal/ocserv/manager.go:140-171 | after a patch of `tcp_port` a process of the instance that lives has bound that port |
| Requests.PatchClientStores | internal/ocserv/manager.go:255-285 | a successful patch stores exactly the client its body asks for and pins it to that address, or to none for a blank one; the password file changes exactly for a new password of a password client |
| Requests.PatchClientSucceedsIff | internal/ocserv/manager.go:255-285 | success exactly for a stored client, a new address that is blank or IPv4, and a tool that works when a password is set |
| Requests.CreateInstanceStores | internal/ocserv/manager.go:65-82 | a created instance is stored field by field as asked, with the defaults `:443`, DTLS on, proxy protocol off, certificates, enabled |
| Requests.CreateInstanceCertificates | internal/ocserv/pki.go:61-241 | server certificate and key, and CA certificate and key when wanted, are the pair that was there or else the new pair, each in its own file |
| Requests.NewClientStored | internal/ocserv/manager.go:188-224 | a created client is stored field by field as asked, enabled, under the new serial exactly when it uses a certificate |
| Durable.StepKeepsSound | internal/state/store.go:152-165 | each durable write made under its condition keeps soundness and leaves the store at a mutation boundary |
| Durable.SafePrefix | internal/state/store.go:152-165 | so does every prefix of a plan whose steps meet their conditions |
| Durable.FlushSafe | internal/state/store.go:152-165 | committing a good store is safe once what it drops is revoked |
| Crash.PlanSafe | internal/ocserv/manager.go:56-285 | every call meets the conditions at every step, so a crash between any two writes is covered |
| Crash.DeleteClientSafe | internal/ocserv/manager.go:235-253 | deletion revokes before it commits: no prefix drops an unrevoked certificate |
| Crash.IssueSafe | internal/ocserv/pki.go:105-157 | issuing never overwrites a bundle and never touches revocation |
| Crash.EnsureCaSafe | internal/ocserv/pki.go:61-101 | creating a CA never replaces one under which a certificate was issued |
| Recovery.CrashRecovers | internal/ocserv/manager.go:43-52 | crash at any write of any call, reboot, Reconcile: records exactly before or after, enabled instances fully restored, lost certificates revoked, CRL within revoked.json |
| Recovery.CrashedSound | internal/state/store.go:35-62 | after the reboot alone, the store is exactly the one before or after the call and everything durable is sound |
| Recovery.ReconcileRestores | internal/ocserv/manager.go:43-52 | Reconcile rebuilds config and pins of every enabled instance from its record |
| Recovery.WriteConfigResult | internal/ocserv/manager.go:438-463 | rendering a good record changes its own config and its own clients' pins and nothing else |
| SteadyState.FlushResult | internal/state/store.go:152-165 | a completed flush leaves memory and file equal and no temporary file |
| SteadyInstances.PatchSteady | internal/ocserv/manager.go:140-171 | after a patch, with any outcome of the start, files and records agree exactly |
| Processes.PatchServing | internal/ocserv/manager.go:152-169 | after a patch, with any outcome of the start, no live process serves an outdated config or CRL |
| Processes.SeePatch | internal/ocserv/manager.go:140-171 | for processes, the many steps of a patch amount to: new config and record, then stop, restart or reload of its own process alone |
| Processes.CreateServing | internal/ocserv/manager.go:56-111 | creating an instance disturbs no other process, and its own serves its own config |
| Processes.CrlServing | internal/ocserv/manager.go:235-253 | revoking and reloading leaves the process on the current CRL |
| Processes.ListenersExact | internal/ocserv/manager.go:155-166 | a process that serves has bound what its file says while no stored record hides a listener |
| SteadyInstances.PatchResult | internal/ocserv/manager.go:140-171 | on disk and in memory, the steps of a patch amount to its record and its config and nothing else |
| SteadyInstances.CreateInstanceSteady | internal/ocserv/manager.go:56-111 | creating an instance, also under a name used before, keeps exact agreement |
| SteadyInstances.DeleteInstanceSteady | internal/ocserv/manager.go:130-137 | deleting an instance removes its config and records and disturbs no other |
| SteadyClients.CreateClientSteady | internal/ocserv/manager.go:175-226 | creating a client, failing at any point, keeps exact agreement and gives it a live serial |
| SteadyClients.PatchClientSteady | internal/ocserv/manager.go:255-285 | patching a client keeps its pin equal to its address |
| SteadyClients.DeleteClientSteady | internal/ocserv/manager.go:235-253 | deletion leaves CRL and revoked set in agreement and touches no other client's certificate |
| SteadyClients.PinResult | internal/ocserv/manager.go:562-584 | a pin call that succeeds leaves the right pin, or none for a blank address, and every other pin as it was |
| Properties.BundleForever | internal/ocserv/pki.go:162-177 | a bundle reassembled from disk is byte for byte the issued one, after any run, crashes included |
| Properties.IssuedBundleIsReturned | internal/ocserv/pki.go:105-157 | right after issue the disk reassembles to the returned bundle |
| Properties.ProfileAvailable | internal/ocserv/manager.go:400-421 | after any run a profile exists for every stored client, under its literal header, with the issued bundle for certificate clients and a note on the user for others |
| Properties.NoInheritedPin | internal/ocserv/manager.go:217-224 | a new client under a reused name has exactly its own pin or none |
| Service.PatchKeepsProcess | internal/ocserv/manager.go:155-166 | after any crashes too, a successful patch naming no listener setting keeps the live process, which re-reads the new config |
| Service.PatchRebinds | internal/ocserv/manager.go:155-166 | a patch that changes a listener never keeps the old process |
| Service.PatchTwice | internal/ocserv/manager.go:140-171 | the same patch again succeeds and never restarts a live process |
| Service.KeptSocketsIff | internal/ocserv/manager.go:155-166 | a process kept by such a patch has bound what the new file says if and only if the record it was started from and the new record give the same listener lines, hidden ones included; when either hides none, if and only if neither does |
| Service.HiddenPort | internal/ocserv/manager.go:155-166 | while no record hides a listener, a patch of the DNS servers succeeds and keeps a process without a port its own config file opens |
| Service.HiddenPortStays | internal/ocserv/manager.go:155-166 | a process started from a record that hides a listener keeps that socket across the patch that cleans the record |
| Properties.NeverFailsAtRendering | internal/ocserv/manager.go:438-463 | after any run no stored instance fails to render |
| Properties.FlushAtomic | internal/state/store.go:152-165 | Open reads the old store until the rename and the new one after it, whether or not the temporary file is torn |
| Revocation.CrlIsRevokedSet | internal/ocserv/pki.go:274-301 | a number is in the CRL if and only if its hex text is in revoked.json, in every steady state |
| Revocation.CrlBehindIffBetweenWrites | internal/ocserv/pki.go:181-194 | in any reachable state, crashes included: a crash inside a revoking DeleteClient leaves a CRL that was in step behind exactly after the first of the two writes |
| Revocation.CrlInStepIff | internal/ocserv/pki.go:181-194 | whatever the CRL was: a revoking DeleteClient stopped after k steps leaves it in step from the second write on, never after the first alone |
| Revocation.NextRevocationRepairs | internal/ocserv/pki.go:190-193 | the next revocation of another certificate brings a CRL that fell behind back into step |
| Revocation.RunCrlIff | internal/ocserv/pki.go:181-194 | after any run with crashes the CRL equals the revoked set if and only if the last revocation was not cut between its two writes |
| Revocation.CrlStaysBehind | internal/ocserv/pki.go:186-188 | deleting the client again then succeeds and writes no CRL |
| Revocation.CrlSeededIff | internal/ocserv/pki.go:61-101 | after a crash inside EnsureCA and a second call the CA loads, and a CRL exists exactly unless the crash fell between CA key and CRL |
| Revocation.DeleteInstanceRevokesNothing | internal/ocserv/manager.go:130-137 | the certificates of a deleted instance's clients are neither stored nor revoked |
| Ledger.RunAccounted | internal/ocserv/manager.go:130-253 | in every run, crashes anywhere: the certificates written, those that are valid but held by no stored client, and those revoked but still held are the sums of what each request, the state before it and the number of its steps taken foretell |
| Ledger.StoppedAccount | internal/ocserv/manager.go:56-285 | the same for one call of any kind stopped after any number of its steps, and for the reboot after it |
| Ledger.NoneLingers | internal/ocserv/manager.go:235-253 | without crashes no revoked certificate is ever left with a stored client |
| Ledger.CreateOrphansIff | internal/ocserv/manager.go:191-224 | CreateClient leaves its certificate to nobody exactly when the checks before issuing pass, a CA is there, and then the password is missing or refused, the name unsafe, or the address neither blank nor IPv4 |
| Progress.FailingClient | internal/ocserv/manager.go:198-224 | right after a first instance, a client named `a/b` or with a bad address is refused and leaves exactly its valid certificate to nobody |
| Ledger.DeleteOrphans | internal/ocserv/manager.go:130-137 | deleting an instance leaves to nobody exactly the unrevoked certificates of its clients |
| Passwords.RunLeftovers | internal/ocserv/manager.go:130-285 | in every run, crashes anywhere: the users a password file admits although no record lists them are those of deleted instances and of clients whose creation set the password and then failed or was cut, until a client of that name is created |
| Passwords.DeletedUserGone | internal/ocserv/manager.go:245-248 | deleting a password client succeeds and takes exactly its name out of the password file |
| Passwords.DeletedFromFile | internal/ocserv/manager.go:245-248 | in a file of user lines, comments and malformed lines, deleting a password client leaves every other line byte for byte and none of its own |
| Passwords.PasswordsOutliveInstance | internal/ocserv/manager.go:130-137 | an instance created again under a name takes over the old password file although it lists no clients |
| Properties.CreateClientStores | internal/ocserv/manager.go:175-226 | a successful CreateClient stores exactly its client, touches no process, and moves no pin but its own |
| Progress.RendersIff | internal/ocserv/config.go:57-183 | a record renders exactly when it has a name, an IPv4 pool, and a secret if camouflage is on; ports and certificate paths never fail |
| Progress.CreateInstanceSucceedsIff | internal/ocserv/manager.go:56-111 | success exactly for a new name, an IPv4 pool, complete camouflage, and an ASCII host unless a server certificate is there; a process that does not start is no error |
| Progress.CreateInstanceServes | internal/ocserv/manager.go:56-111 | a created instance is stored as asked, without clients, with a CA if it checks certificates, and served exactly when enabled and started |
| Plans.CreateClientSucceedsIff | internal/ocserv/manager.go:175-226 | success exactly for a known instance, a new safe name, a blank, IPv4 or IPv4-mapped address, and an available CA or password |
| Progress.CidrRoundTrip | internal/ocserv/config.go:187-197 | a pool printed as address, slash and prefix length reads back as itself |
| Endpoints.PortAfterColon | internal/ocserv/manager.go:665-684 | the port of a listen address is the number after its last colon, or the whole text without one, however the host is written: the split into host and port never matters |
| Endpoints.WrittenPorts | internal/ocserv/manager.go:665-684 | after any host, an empty one, a bracketed one, or alone, a positive decimal number is the port asked for |
| Endpoints.UnusablePort | internal/ocserv/manager.go:466-469 | a last part with any other character in it asks for port 443 |
| Endpoints.ListenersAsked | internal/ocserv/manager.go:465-480 | a rendered file that hides nothing opens exactly the listeners the record asks for |
| Endpoints.HostOfPlain | internal/ocserv/manager.go:695-703 | host:port gives the host |
| Endpoints.HostOfBracketed | internal/ocserv/manager.go:695-703 | [host]:port gives the host, colons included |
| Endpoints.HostOtherwise | internal/ocserv/manager.go:695-703 | any other endpoint is a host as it stands |
| Progress.FirstUser | internal/ocserv/manager.go:56-226 | on an untouched host two calls give a running instance and a user with certificate and pin, listening on TCP and UDP port 443, for every pool and name: no invariant is vacuous |
| Numerals.HexRoundTrip | internal/ocserv/pki.go:142 | a serial printed in hex is not empty and reads back as itself |
| Numerals.ShowOfValue | internal/ocserv/pki.go:274-301 | a canonical numeral read and printed is the numeral itself |
| World.PinIsTheAddress | internal/ocserv/config.go:223-226 | the pin of a dotted address sets explicit-ipv4 to that text without its surrounding white space and holds nothing else |
| World.PinOfMapped | internal/ocserv/manager.go:575-583 | the pin of an IPv4-mapped IPv6 literal holds the dotted address |
| Addresses.To4Iff | internal/ocserv/manager.go:575-578 | accepted as static address are exactly dotted IPv4 and IPv6 literals that map an IPv4 address |
| Addresses.DottedRead | internal/ocserv/manager.go:575-578 | a dotted literal reads as itself although IPv6 forms are tried too |
| Addresses.MappedRead | internal/ocserv/manager.go:575-583 | the mapped form of every IPv4 address reads as that address |
| Addresses.Ipv6RoundTrip | internal/ocserv/manager.go:575 | eight fields printed with colons read back as themselves |
| Addresses.Ipv6GapRoundTrip | internal/ocserv/manager.go:575 | a gap between any fields reads as the zeros that are missing, and is refused when none is |
| Addresses.Ipv6Refused | internal/ocserv/manager.go:575 | too few fields without a gap, or a second gap, make no address |
| Addresses.DottedTail | internal/ocserv/manager.go:575 | without a gap, a dotted tail stands behind exactly six fields |
| Ipv4.QuadRoundTrip | internal/ocserv/config.go:187-197 | an address printed in dotted form reads back as itself |
| Ipv4.MaskLeadingOnes | internal/ocserv/config.go:187-197 | bit i from the top of the mask is one exactly when i is below the prefix length |
| Ipv4.NetworkValue | internal/ocserv/config.go:187-197 | masking octet by octet rounds the address down to a multiple of the block size |
| Cidr.SplitDenotesBlock | internal/ocserv/config.go:187-197 | both strings parse back, mask and network are right, and masking decides exactly who is in the pool |
| Cidr.SameSplitIffSameBlock | internal/ocserv/config.go:187-197 | two pools give the same strings if and only if they denote the same set of addresses |
| Ordering.IncreasingUnique | internal/ocserv/config.go:199-211 | a set has one strictly increasing listing |
| Ordering.CanonicalBySet | internal/ocserv/config.go:199-211 | deduplicating and sorting depends on the set of entries only |
| Ordering.LessIff | internal/ocserv/config.go:209 | the order compares the first characters that differ, and a proper prefix comes first |
| Config.DedupSorted | internal/ocserv/config.go:199-211 | the seen-map loop and the sort give the strictly increasing listing of exactly the input's entries |
| Config.PrintConfig | internal/ocserv/config.go:57-167 | the builder writes the text of the specified entries in order, or fails exactly when validation, the client CA, the camouflage secret or the pool does |
| Config.RoutesCanonical | internal/ocserv/config.go:147-153 | configs with the same set of routes render to the same text |
| ConfigReading.AuthReadBack | internal/ocserv/config.go:67-94 | by the literal names of the settings: the authentication back ends by mode, CA certificate, user field and CRL exactly for certificate modes, and the server certificate and key |
| ConfigReading.ListenersReadBack | internal/ocserv/config.go:95-104 | the port lines the record asks for, the local address and the proxy protocol, each when set |
| ConfigReading.SocketsReadBack | internal/ocserv/config.go:104-119 | the two control sockets, the device cut to 15 characters, and the directory of the pins |
| ConfigReading.CamouflageReadBack | internal/ocserv/config.go:121-131 | nothing when camouflage is off, else the secret, and the realm unless empty |
| ConfigReading.NetworkReadBack | internal/ocserv/config.go:133-158 | pool, mask and IPv6 pool, every DNS server in order, every route once in sorted order, and the host of the endpoint |
| ConfigReading.LimitsReadBack | internal/ocserv/config.go:160-165 | the constant limits and compatibility settings |
| ConfigReading.CommentsReadBack | internal/ocserv/config.go:64-149 | the only comments are the header with the quoted name and, without routes, the full tunnel |
| Quoting.QuoteReadsBack | internal/ocserv/config.go:64 | a quoted name reads back as itself and its closing quote is the only bare one |
| Sockets.RenderedBinds | internal/ocserv/config.go:57-167 | any rendered file opens exactly the listener section between the lines hidden in the values printed before and after it |
| Sockets.RenderedBindsIff | internal/ocserv/config.go:57-167 | of the whole file text ocserv binds what the listener section says, if and only if no other printed value hides a listener line behind a newline |
| Sockets.RenderedBindsLinesIff | internal/ocserv/config.go:92-112 | these are the printed listener lines one by one if and only if, besides, local_bind holds no newline |
| Sockets.CleanIff | internal/ocserv/config.go:57-167 | for names and directories without newlines the condition concerns the values of the request alone |
| Sockets.SameListenersSameLines | internal/ocserv/manager.go:736-742 | when listenersDiffer is false, the two files open the same listeners if and only if the lines hidden before and after the common section make the same sequence with it; when either record hides none, if and only if neither does |
| Records.PatchIdempotent | internal/ocserv/manager.go:617-653 | a patch applied twice is applied once, and never changes name, pool, listen address or auth mode |
| Records.PatchesCombine | internal/ocserv/manager.go:617-653 | patches without a common key can be applied in either order, or as one |
| Records.OnlyKnownKeys | internal/ocserv/manager.go:617-653 | what a patch does depends on nine keys of the body alone |
| Paths.ValidPerUserNameExactly | internal/ocserv/manager.go:538-557 | exactly the names accepted: one plain element without backslash or control character |
| Paths.PinPath | internal/ocserv/manager.go:529-534 | the pin file is the per-user directory, one slash, and the name verbatim |
| Paths.PinPathInjective | internal/ocserv/manager.go:517-557 | different clients, also of different instances, never share a pin file |
| Ocpasswd.FilterInPlace | internal/ocserv/ocpasswd.go:63-72 | filtering into the array being read leaves exactly the lines of other users, in order |
| Ocpasswd.PasswordFile.DeleteUser | internal/ocserv/ocpasswd.go:55-74 | the file after the call, untouched when it is absent or the user is unknown |
| Ocpasswd.RereadSameIff | internal/ocserv/ocpasswd.go:92-118 | written lines read back as themselves if and only if none ends in a carriage return |
| Ocpasswd.DeleteKeepsOtherLines | internal/ocserv/ocpasswd.go:55-74 | the other lines survive in order, comments and malformed ones included, under exactly that condition |
| Ocpasswd.DeleteLosesExactlyOne | internal/ocserv/ocpasswd.go:55-90 | the listed users lose exactly the deleted one, for any file |
| Ocpasswd.DeleteTwice | internal/ocserv/ocpasswd.go:55-74 | a second deletion changes no byte |
| Ocpasswd.DeleteEmptyUser | internal/ocserv/ocpasswd.go:55-74 | deleting the empty user changes nothing, although comments and malformed lines carry that name |
| Ocpasswd.OwnLine | internal/ocserv/ocpasswd.go:120-129 | a line user:rest belongs to that user, indented or not, whatever follows the first colon |
| Ocpasswd.NobodysLine | internal/ocserv/ocpasswd.go:120-129 | comments, blank lines, lines without a colon and lines that start with one belong to nobody |
| Ocpasswd.PrintedDeletion | internal/ocserv/ocpasswd.go:55-90 | in a file printed from user lines and such other lines the users are those of the user lines, and a deletion leaves exactly the print of the others |
| TrailingCommas.ReplaceAllIsStrip | internal/ocserv/occtl.go:224 | the leftmost, non-overlapping replacement deletes exactly the commas whose next non-white character closes a bracket |
| TrailingCommas.OnePassIsEnoughIff | internal/ocserv/occtl.go:199 | no trailing comma is left, and a second pass changes nothing, if and only if no deleted comma follows another across white space |
| BanList.ParseBans | internal/ocserv/occtl.go:194-220 | trimming, sanitising, decoding and the loop give the specified bans, or an error |
| BanList.AnyCase | internal/ocserv/occtl.go:146-150 | addresses and scores are found under their names in any mixture of cases, an empty or null score is zero, a null address keeps the field and a number is no address |
| BanList.Malformed | internal/ocserv/occtl.go:203-206 | a number with a leading zero and a string that is not closed or holds a line break are refused |
| BanPrinting.ListDecoded | internal/ocserv/occtl.go:204-206 | any list of clean flat objects in any JSON white space decodes to itself |
| BanPrinting.ListStripped | internal/ocserv/occtl.go:199 | on printed lists the sanitiser removes the comma after the last row and nothing else |
| BanPrinting.ScoreRead | internal/ocserv/occtl.go:30-46 | a score up to 2^53 reads as itself, bare, quoted or with a unit |
| BanPrinting.BanListRoundTrip | internal/ocserv/occtl.go:194-220 | an occtl-style list reads back as exactly its rows with a non-blank address, in order, Since trimmed, whatever the white space, last comma and score style |
| BanMerge.AllBans | internal/ocserv/manager.go:324-364 | the merged list, and an error exactly when there are instances and every one failed |
| BanMerge.MergedHas | internal/ocserv/manager.go:324-364 | the answer holds every ban, and every point on an address not banned, of the readable instances, and nothing else |
| BanMerge.BannedIffListed | internal/ocserv/manager.go:340-359 | an entry is marked banned exactly when its instance's ban list has the address |
| BanMerge.EachOnce | internal/ocserv/manager.go:340-359 | each (instance, address) of either list of a readable instance appears exactly once, any other never |
| Labels.BuildLabels | internal/metrics/exporter.go:89-103 | the builder loop writes all pairs, dropping an odd argument |
| Labels.LabelsReadBack | internal/metrics/exporter.go:89-108 | a reader stopping at the first unescaped quote recovers the key/value list for any values |
| Labels.LabelsInjective | internal/metrics/exporter.go:89-108 | equal blocks come from equal lists |
| Labels.BodyOneLine | internal/metrics/exporter.go:105-108 | escaped values never break the line |
| Exposition.CountSessions | internal/metrics/exporter.go:50-53 | the counting loop gives the number of sessions of every name, zero for absent ones |
| Exposition.Render | internal/metrics/exporter.go:37-78 | the text is the specified lines, instances by name and users by instance and name, counting before sorting |
| Exposition.OneOrder | internal/metrics/exporter.go:48 | instances have one sorted order, so their lines do not depend on the order they are listed in |
| Exposition.UserOrder | internal/metrics/exporter.go:63-68 | two sorted orders of the sessions show the same user at every place |
| Exposition.TextReadsBack | internal/metrics/exporter.go:37-108 | reading the text back gives every sample in order, each number under the literal name of its series and with the literal label names: nothing in a name can forge, hide or merge a series |
| Exposition.HeadersReadBack | internal/metrics/exporter.go:40-84 | the comments are the HELP and TYPE lines of the six series in order, the two byte series counters and the rest gauges |
| Exposition.LineCount | internal/metrics/exporter.go:37-86 | always 12 + 3 per instance + 3 per session lines |
| Exposition.UsersApart | internal/metrics/exporter.go:70-75 | label blocks are equal exactly when instance and common name are |
| Exposition.SessionsConserved | internal/metrics/exporter.go:50-60 | the per-instance counts add up to the sessions on listed instances |

## Left out

- HTTP routing, bearer authentication, error texts, the API client, CLI, TUI and YAML configuration: plumbing.
- Concurrent calls: the program checks and acts without a lock across a call, so uniqueness holds only for calls in sequence.
- File operations that fail on a healthy host, including a failed store flush, which leaves memory ahead of disk.
- RSA, X.509 and PEM encoding, expiry and CRL validity dates and hashing of passwords: certificates are opaque texts and the ocpasswd tool's effect is an input. Creating directories is no step.
- Processes that outlive the daemon and the time a port needs to be released after a stop.
- Daemon.Supervisor.Start: a start either yields a live process or fails; a process that exits right after its start is a later death.
- State.json's encoding: the store file holds the records themselves; a torn file other than the temporary one does not occur.
- Config.PrintConfig: the quoting of `%q` treats every character above ASCII as printable, and device names are cut by characters, not bytes.
- Ocpasswd.PasswordFile.DeleteUser: lines longer than the scanner's 64 KiB limit are not modelled.
- BanList.ParseBans: the decoder covers flat objects of strings without escapes, whole numbers and null; numbers with a sign, fraction or exponent, scores above 2^53 and nested values are errors here, while the code accepts some of them. Field names match regardless of ASCII case only.
- Requests.PatchInstanceStores: a `tcp_port` beyond 64 bits is cut like any other number; Go leaves that conversion to the machine.
- ConfigReading.AuthReadBack: it and the other readers of a config file are about records whose printed texts hold no newline; what a newline brings in is the matter of `Sockets`.
- Exposition.Render: how `%g` prints a number is a function parameter, and the sorted lists are inputs; a user with two sessions appears twice.
- Parsing of sessions, `Unban`, `Disconnect` and `ListUsers`' sorting: one loop or one call each, easy beside the members above.
- The link from occtl's replies to live processes: ban lists are inputs.
