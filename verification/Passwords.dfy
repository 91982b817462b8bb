/** Whom the password file of an instance admits, and which calls leave users in it that no record lists. */
module Passwords {
  import opened Wrappers
  import opened Records
  import opened Config
  import opened World
  import opened Plans
  import opened Durable
  import opened Crash
  import opened Recovery
  import opened SteadyState
  import opened SteadyInstances
  import opened SteadyClients
  import opened Runs
  import opened Writes
  import opened Ledger
  import Ocpasswd
  import Text

  // ------------------------------------------------ users

  // The users in the password file of an instance.
  function Admits(w: State, n: string): set<string> {
    Ocpasswd.FileUsers(PasswdOf(w.disk, n))
  }

  // The clients of an instance that log in with a password.
  function Listed(data: StoreData, n: string): set<string> {
    set cn | cn in ClientsOf(data, n) && UsesPassword(ClientsOf(data, n)[cn].authMode)
  }

  // Users in the file that no record lists.
  function Leftover(w: State, n: string): set<string> {
    Admits(w, n) - Listed(w.mem, n)
  }

  // The steps of a CreateClient before it sets the password.
  function Before(w: State, name: string, req: ClientRequest): nat {
    if Issues(w, name, req) then 3 else 0
  }

  // What the first k of the m steps of a call do to them, read off the request and the state before it.
  function LeftBy(left: set<string>, w: State, r: Request, o: Outside, k: nat, m: nat, n: string): set<string> {
    match r
    case CreateClient(name, req) =>
      var cn := Text.Trim(req.commonName);
      if name != n || !SetsPassword(w, name, req, o) || k <= Before(w, name, req) then left
      else if k == m && PinOk(cn, req.staticIp) then left - {cn}
      else left + {cn}
    case DeleteInstance(name) => if name != n || k < m then left else left + Admits(w, n)
    case _ => left
  }

  // The ocpasswd tool, when it does not fail, adds the user it was asked to add and no other.
  predicate ToolAdds(w: State, r: Request, o: Outside) {
    match r
    case CreateClient(name, req) =>
      o.passwd.Some? ==> Ocpasswd.FileUsers(o.passwd) == Admits(w, name) + {Text.Trim(req.commonName)}
    case PatchClient(name, cn, _) => o.passwd.Some? ==> Ocpasswd.FileUsers(o.passwd) == Admits(w, name) + {cn}
    case _ => true
  }

  // ------------------------------------------------ the password file while a call runs

  // The steps set at most one password, and nothing else touches the file.
  lemma PasswordAt(w: State, front: seq<Step>, password: seq<Step>, tail: seq<Step>, k: nat)
    requires Within(front, AllBut(InPasswords)) && Within(tail, AllBut(InPasswords))
    requires |password| <= 1 && (password != [] ==> password[0].WritePasswd?)
    requires k <= |front + password + tail|
    ensures Exec(w, (front + password + tail)[..k]).disk.passwd
         == if password != [] && k > |front| then w.disk.passwd[password[0].name := password[0].text]
            else w.disk.passwd
  {
    hide Exec, AllBut, PlaceOf;
    var others := AllBut(InPasswords);
    var steps := front + password + tail;
    if password == [] {
      assert steps == front + tail;
      WithinAppend(front, tail, others);
      WithinPrefix(steps, k, others);
      PasswordsLeft(w, steps[..k]);
    } else if k <= |front| {
      assert steps[..k] == front[..k];
      WithinPrefix(front, k, others);
      PasswordsLeft(w, front[..k]);
    } else {
      var more := tail[..k - |front| - 1];
      var u := Exec(w, front);
      assert steps[..k] == front + ([password[0]] + more);
      ExecAppend(w, front, [password[0]] + more);
      ExecAppend(u, [password[0]], more);
      ExecOne(u, password[0]);
      WithinPrefix(tail, k - |front| - 1, others);
      PasswordsLeft(w, front);
      PasswordsLeft(Apply(u, password[0]), more);
    }
  }

  lemma PasswordsLeft(w: State, steps: seq<Step>)
    requires Within(steps, AllBut(InPasswords))
    ensures Exec(w, steps).disk.passwd == w.disk.passwd
  {
    hide Exec, Within;
    WithinLeaves(w, steps, AllBut(InPasswords));
  }

  lemma UsersKept(w: State, v: State, n: string)
    requires v.disk.passwd == w.disk.passwd
    ensures Admits(v, n) == Admits(w, n)
  {
    hide Ocpasswd.FileUsers;
  }

  lemma UsersSet(w: State, v: State, name: string, text: string, n: string)
    requires v.disk.passwd == w.disk.passwd[name := text]
    ensures Admits(v, n) == if n == name then Ocpasswd.FileUsers(Some(text)) else Admits(w, n)
  {
    hide Ocpasswd.FileUsers;
  }

  // Steps that leave the file alone, up to a commit.
  lemma TailLeaves(pin: seq<Step>, data: StoreData)
    requires Within(pin, {Elsewhere})
    ensures Within(pin + Flush(data), AllBut(InPasswords)) && Within([], AllBut(InPasswords))
  {
    hide *;
    AllButHas(InPasswords);
    WithinMore(pin, {Elsewhere}, AllBut(InPasswords));
    FlushWithin(data);
    WithinMore(Flush(data), STORE, AllBut(InPasswords));
    WithinAppend(pin, Flush(data), AllBut(InPasswords));
    NoneWithin(AllBut(InPasswords));
  }

  // ------------------------------------------------ CreateClient

  lemma CreateStoppedUsers(w: State, name: string, req: ClientRequest, o: Outside, k: nat, n: string)
    requires ToolAdds(w, CreateClient(name, req), o) && k <= |CreateClientPlan(w, name, req, o).steps|
    ensures var steps := CreateClientPlan(w, name, req, o).steps;
            && Admits(Exec(w, steps[..k]), n) == Admits(w, n)
                + (if n == name && SetsPassword(w, name, req, o) && k > Before(w, name, req)
                   then {Text.Trim(req.commonName)} else {})
            && (SetsPassword(w, name, req, o) ==> |steps| > Before(w, name, req))
  {
    hide *;
    var c := CreateClientPlan(w, name, req, o);
    var issue, password, pin := CreateClientParts(w, name, req, o);
    var after := WithNewcomer(w, name, req, o);
    var tail := if c.error.None? then pin + Flush(after) else [];
    WithNewcomerIs(w, name, req, o);
    TailLeaves(pin, after);
    IssueLength(w, name, req, o);
    AllButHas(InPasswords);
    WithinMore(issue, {InCerts, Elsewhere}, AllBut(InPasswords));
    assert c.steps == issue + password + tail;
    SetPasswordIs(w, name, req, o);
    PasswordAt(w, issue, password, tail, k);
    var v := Exec(w, c.steps[..k]);
    if password != [] && k > |issue| {
      ToolResult(w, CreateClient(name, req), o);
      UsersSet(w, v, name, o.passwd.value, n);
    } else {
      UsersKept(w, v, n);
    }
  }

  lemma IssueLength(w: State, name: string, req: ClientRequest, o: Outside)
    ensures |if Issues(w, name, req) then Issue(w.disk, name, o).steps else []| == Before(w, name, req)
  {
    hide Text.Trim, OrAuth, UsesCert;
  }

  lemma SetPasswordIs(w: State, name: string, req: ClientRequest, o: Outside)
    ensures SetsPassword(w, name, req, o) ==>
              o.passwd.Some? && SetPassword(name, o).steps == [WritePasswd(name, o.passwd.value)]
  {
    hide Text.Trim, OrAuth, UsesCert, UsesPassword;
  }

  lemma ToolResult(w: State, r: Request, o: Outside)
    requires ToolAdds(w, r, o) && o.passwd.Some?
    ensures r.CreateClient? ==>
              Ocpasswd.FileUsers(Some(o.passwd.value)) == Admits(w, r.name) + {Text.Trim(r.peer.commonName)}
    ensures r.PatchClient? ==> Ocpasswd.FileUsers(Some(o.passwd.value)) == Admits(w, r.name) + {r.cn}
  {
    hide Ocpasswd.FileUsers, Text.Trim, Admits;
  }

  // Storing a client lists it when it logs in with a password.
  lemma ListedNow(data: StoreData, name: string, c: Client, n: string)
    requires c.commonName !in ClientsOf(data, name)
    ensures Listed(PutClient(data, name, c), n)
         == Listed(data, n) + (if n == name && UsesPassword(c.authMode) then {c.commonName} else {})
    ensures n == name ==> c.commonName !in Listed(data, n)
  {
  }

  // When the password has been set, only the pin can fail.
  lemma PasswordOutcome(w: State, name: string, req: ClientRequest, o: Outside)
    ensures SetsPassword(w, name, req, o) ==>
              && Passes(w, name, req)
              && (CreateClientPlan(w, name, req, o).error.None? <==> PinOk(Text.Trim(req.commonName), req.staticIp))
    ensures CreateClientPlan(w, name, req, o).error.None? ==>
              && name in w.mem.instances
              && Newcomer(w, name, req, o).commonName == Text.Trim(req.commonName)
              && (UsesPassword(Newcomer(w, name, req, o).authMode) <==> SetsPassword(w, name, req, o))
              && Newcomer(w, name, req, o).commonName !in ClientsOf(w.mem, name)
  {
    hide CreateClientPlan, GoodName, Text.Trim, OrAuth, PinFor, Unpinned, UsesCert, UsesPassword, CaLoads;
    CreateClientSucceedsIff(w, name, req, o);
    UnpinnedIff(req.staticIp);
    if CreateClientPlan(w, name, req, o).error.None? {
      PassesWhenDone(w, name, req, o);
    }
  }

  lemma CreateClientLeft(
      d: Dirs, w: State, name: string, req: ClientRequest, o: Outside, k: nat, torn: bool, n: string)
    requires Sound(d, w) && Synced(w) && Admissible(w, CreateClient(name, req), o)
    requires ToolAdds(w, CreateClient(name, req), o) && k <= |CreateClientPlan(w, name, req, o).steps|
    ensures var steps := CreateClientPlan(w, name, req, o).steps;
            Leftover(Crashed(w, steps, k, torn), n)
            == LeftBy(Leftover(w, n), w, CreateClient(name, req), o, k, |steps|, n)
  {
    hide *;
    var c := CreateClientPlan(w, name, req, o);
    var v := Crashed(w, c.steps, k, torn);
    PlanIs(d, w, CreateClient(name, req), o);
    StoppedFiles(w, c.steps, k, torn);
    StoppedMemory(d, w, CreateClient(name, req), o, k, torn);
    CreateStoppedUsers(w, name, req, o, k, n);
    CreateStoppedStore(w, name, req, o, k);
    UsersKept(Exec(w, c.steps[..k]), v, n);
    PasswordOutcome(w, name, req, o);
    if SetsPassword(w, name, req, o) {
      NotListedYet(w, name, req);
    }
    if c.error.None? && k == |c.steps| {
      ListedNow(w.mem, name, Newcomer(w, name, req, o), n);
    }
    CreateClientLeftBy(w, v, name, req, o, k, |c.steps|, n, c.error.None? && k == |c.steps|);
  }

  lemma NotListedYet(w: State, name: string, req: ClientRequest)
    requires Passes(w, name, req)
    ensures Text.Trim(req.commonName) !in Listed(w.mem, name)
  {
    hide Text.Trim;
  }

  lemma CreateClientLeftBy(
      w: State, v: State, name: string, req: ClientRequest, o: Outside, k: nat, m: nat, n: string, done: bool)
    requires var cn, sets := Text.Trim(req.commonName), SetsPassword(w, name, req, o);
             && Admits(v, n)
                == Admits(w, n) + (if n == name && sets && k > Before(w, name, req) then {cn} else {})
             && Listed(v.mem, n) == Listed(w.mem, n) + (if n == name && sets && done then {cn} else {})
             && (sets ==>
                   && (done <==> k == m && PinOk(cn, req.staticIp))
                   && cn !in Listed(w.mem, name) && m > Before(w, name, req))
    ensures Leftover(v, n) == LeftBy(Leftover(w, n), w, CreateClient(name, req), o, k, m, n)
  {
    hide Admits, Listed, Text.Trim, SetsPassword, Before, PinOk;
  }

  // ------------------------------------------------ the other calls

  // Calls that leave the file and the listed clients of the instance alone.
  lemma SameLeft(w: State, v: State, n: string)
    requires v.disk.passwd == w.disk.passwd && Listed(v.mem, n) == Listed(w.mem, n)
    ensures Leftover(v, n) == Leftover(w, n)
  {
    hide Listed, Admits;
    UsersKept(w, v, n);
  }

  lemma InstanceCallLeft(
      d: Dirs, w: State, r: Request, o: Outside, k: nat, torn: bool, n: string, a: seq<Step>, after: StoreData,
      b: seq<Step>)
    requires Sound(d, w) && Synced(w) && Admissible(w, r, o) && k <= |Plan(d, w, r, o).steps|
    requires Within(a, {Elsewhere}) && Within(b, {Elsewhere})
    requires Plan(d, w, r, o).steps == a + (Flush(after) + b) || Plan(d, w, r, o).steps == a
    requires Listed(after, n) == Listed(w.mem, n)
    ensures Leftover(Crashed(w, Plan(d, w, r, o).steps, k, torn), n) == Leftover(w, n)
  {
    hide *;
    var steps := Plan(d, w, r, o).steps;
    var v := Crashed(w, steps, k, torn);
    StoppedFiles(w, steps, k, torn);
    StoppedMemory(d, w, r, o, k, torn);
    AllButHas(InPasswords);
    WithinMore(a, {Elsewhere}, AllBut(InPasswords));
    CommitLeaves(a, after, b);
    WithinPrefix(steps, k, AllBut(InPasswords));
    PasswordsLeft(w, steps[..k]);
    FilesHas();
    WithinMore(a, {Elsewhere}, FILES);
    WithinMore(b, {Elsewhere}, FILES);
    CommitsOnce(w, a, after, b);
    MemoryLeft(w, a);
    SameLeft(w, v, n);
  }

  lemma CommitLeaves(a: seq<Step>, after: StoreData, b: seq<Step>)
    requires Within(a, {Elsewhere}) && Within(b, {Elsewhere})
    ensures Within(a + (Flush(after) + b), AllBut(InPasswords))
  {
    hide *;
    AllButHas(InPasswords);
    WithinMore(a, {Elsewhere}, AllBut(InPasswords));
    WithinMore(b, {Elsewhere}, AllBut(InPasswords));
    FlushWithin(after);
    WithinMore(Flush(after), STORE, AllBut(InPasswords));
    WithinAppend(Flush(after), b, AllBut(InPasswords));
    WithinAppend(a, Flush(after) + b, AllBut(InPasswords));
  }

  // A record brings and takes no clients.
  lemma PutListed(data: StoreData, rec: Instance, n: string)
    ensures Listed(PutInstance(data, rec), n) == Listed(data, n)
  {
    assert ClientsOf(PutInstance(data, rec), n) == ClientsOf(data, n);
  }

  lemma PatchedListed(data: StoreData, name: string, cn: string, body: Body, n: string)
    requires cn in ClientsOf(data, name) && ClientsOf(data, name)[cn].commonName == cn
    ensures Listed(PutClient(data, name, PatchedClient(ClientsOf(data, name)[cn], body)), n) == Listed(data, n)
  {
    hide StringField, BoolField;
  }

  lemma CreateInstanceLeft(d: Dirs, w: State, req: InstanceRequest, o: Outside, k: nat, torn: bool, n: string)
    requires Sound(d, w) && Synced(w) && Admissible(w, CreateInstance(req), o)
    requires k <= |CreateInstancePlan(d, w, req, o).steps|
    ensures Leftover(Crashed(w, CreateInstancePlan(d, w, req, o).steps, k, torn), n) == Leftover(w, n)
  {
    hide *;
    var a, b := CreateInstanceParts(d, w, req, o);
    InstancePlanIs(d, w, CreateInstance(req), o);
    PutListed(w.mem, NewInstance(req), n);
    InstanceCallLeft(d, w, CreateInstance(req), o, k, torn, n, a, PutInstance(w.mem, NewInstance(req)), b);
  }

  lemma InstancePlanIs(d: Dirs, w: State, r: Request, o: Outside)
    ensures r.CreateInstance? ==> Plan(d, w, r, o) == CreateInstancePlan(d, w, r.inst, o)
    ensures r.PatchInstance? ==> Plan(d, w, r, o) == PatchInstancePlan(d, w, r.name, r.body, o)
    ensures r.PatchClient? ==> Plan(d, w, r, o) == PatchClientPlan(w, r.name, r.cn, r.body, o)
  {
    hide CreateInstancePlan, PatchInstancePlan, PatchClientPlan;
  }

  lemma PatchInstanceLeft(
      d: Dirs, w: State, name: string, body: Body, o: Outside, k: nat, torn: bool, n: string)
    requires Sound(d, w) && Synced(w) && Admissible(w, PatchInstance(name, body), o)
    requires k <= |PatchInstancePlan(d, w, name, body, o).steps|
    ensures Leftover(Crashed(w, PatchInstancePlan(d, w, name, body, o).steps, k, torn), n) == Leftover(w, n)
  {
    hide *;
    var a, b := PatchInstanceParts(d, w, name, body, o);
    InstancePlanIs(d, w, PatchInstance(name, body), o);
    if name in w.mem.instances && Rendered(d, Patched(w.mem.instances[name], body)).Some? {
      var rec := Patched(w.mem.instances[name], body);
      PutListed(w.mem, rec, n);
      InstanceCallLeft(d, w, PatchInstance(name, body), o, k, torn, n, a, PutInstance(w.mem, rec), b);
    } else {
      NoneWithin({Elsewhere});
      InstanceCallLeft(d, w, PatchInstance(name, body), o, k, torn, n, [], w.mem, []);
    }
  }

  lemma DeleteInstanceLeft(d: Dirs, w: State, name: string, o: Outside, k: nat, torn: bool, n: string)
    requires Sound(d, w) && Synced(w) && Admissible(w, DeleteInstance(name), o)
    requires k <= |DeleteInstancePlan(w, name).steps|
    ensures var steps := DeleteInstancePlan(w, name).steps;
            Leftover(Crashed(w, steps, k, torn), n)
            == LeftBy(Leftover(w, n), w, DeleteInstance(name), o, k, |steps|, n)
  {
    hide *;
    var r := DeleteInstance(name);
    var steps := DeleteInstancePlan(w, name).steps;
    var v := Crashed(w, steps, k, torn);
    var a := DeleteInstanceParts(w, name);
    var after := DropInstance(w.mem, name);
    PlanIs(d, w, r, o);
    StoppedFiles(w, steps, k, torn);
    StoppedMemory(d, w, r, o, k, torn);
    AllButHas(InPasswords);
    NoneWithin(AllBut(InPasswords));
    NoneWithin({Elsewhere});
    CommitLeaves(a, after, []);
    assert a + (Flush(after) + []) == a + Flush(after);
    WithinPrefix(steps, k, AllBut(InPasswords));
    PasswordsLeft(w, steps[..k]);
    UsersKept(w, v, n);
    DroppedListed(w.mem, name, n);
    SoundShape(d, w, name);
    if name in w.mem.instances {
      FilesHas();
      WithinMore(a, {Elsewhere}, FILES);
      CommitsLast(w, a, after, k);
    } else {
      ExecNone(w);
    }
    DeleteInstanceLeftBy(w, v, name, o, k, |steps|, n);
  }

  lemma DroppedListed(data: StoreData, name: string, n: string)
    ensures Listed(DropInstance(data, name), n) == (if n == name then {} else Listed(data, n))
    ensures name !in data.clients ==> Listed(data, name) == {}
  {
  }

  lemma DeleteInstanceLeftBy(w: State, v: State, name: string, o: Outside, k: nat, m: nat, n: string)
    requires k <= m && Admits(v, n) == Admits(w, n)
    requires Listed(v.mem, n) == if k == m && n == name then {} else Listed(w.mem, n)
    ensures Leftover(v, n) == LeftBy(Leftover(w, n), w, DeleteInstance(name), o, k, m, n)
  {
    hide Admits, Listed;
  }

  lemma PatchClientLeft(
      d: Dirs, w: State, name: string, cn: string, body: Body, o: Outside, k: nat, torn: bool, n: string)
    requires Sound(d, w) && Synced(w) && Admissible(w, PatchClient(name, cn, body), o)
    requires ToolAdds(w, PatchClient(name, cn, body), o) && k <= |PatchClientPlan(w, name, cn, body, o).steps|
    ensures Leftover(Crashed(w, PatchClientPlan(w, name, cn, body, o).steps, k, torn), n) == Leftover(w, n)
  {
    hide *;
    var r := PatchClient(name, cn, body);
    var steps := PatchClientPlan(w, name, cn, body, o).steps;
    var u, v := Exec(w, steps[..k]), Crashed(w, steps, k, torn);
    InstancePlanIs(d, w, r, o);
    StoppedFiles(w, steps, k, torn);
    if cn in ClientsOf(w.mem, name) {
      var c := PatchedClient(ClientsOf(w.mem, name)[cn], body);
      var after := PutClient(w.mem, name, c);
      var password, pin := PatchClientSteps(d, w, name, cn, body, o);
      var tail := if steps == password then [] else pin + Flush(after);
      StoredName(d, w, name, cn);
      StoppedMemory(d, w, r, o, k, torn);
      PatchMemory(w, password, pin, after);
      PatchedListed(w.mem, name, cn, body, n);
      TailLeaves(pin, after);
      NoneWithin(AllBut(InPasswords));
      PatchPasswordIs(w, name, cn, body, o);
      assert steps == [] + password + tail;
      PasswordAt(w, [], password, tail, k);
      UsersKept(u, v, n);
      if password != [] && k > 0 {
        ToolResult(w, r, o);
        UsersSet(w, u, name, o.passwd.value, n);
      } else {
        UsersKept(w, u, n);
      }
      PatchClientLeftBy(w, v, name, cn, n);
    } else {
      UnknownPatch(w, name, cn, body, o);
      assert steps[..k] == [];
      ExecNone(w);
      SameLeft(w, v, n);
    }
  }

  lemma PatchMemory(w: State, password: seq<Step>, pin: seq<Step>, after: StoreData)
    requires Within(password, {InPasswords}) && Within(pin, {Elsewhere})
    ensures Exec(w, password).mem == w.mem && Exec(w, password + pin + Flush(after)).mem == after
  {
    hide *;
    FilesHas();
    WithinMore(password, {InPasswords}, FILES);
    WithinMore(pin, {Elsewhere}, FILES);
    WithinAppend(password, pin, FILES);
    MemoryLeft(w, password);
    CommitsLast(w, password + pin, after, 0);
  }

  lemma PatchPasswordIs(w: State, name: string, cn: string, body: Body, o: Outside)
    requires cn in ClientsOf(w.mem, name)
    ensures var password := PatchPassword(name, PatchedClient(ClientsOf(w.mem, name)[cn], body), body, o).steps;
            password != [] ==>
              && o.passwd.Some? && password == [WritePasswd(name, o.passwd.value)]
              && cn in Listed(w.mem, name)
  {
    hide NewPassword, UsesPassword, StringField, BoolField;
  }

  // Setting the password of a listed client admits nobody new to the leftovers.
  lemma PatchClientLeftBy(w: State, v: State, name: string, cn: string, n: string)
    requires Listed(v.mem, n) == Listed(w.mem, n)
    requires || Admits(v, n) == Admits(w, n)
             || (n == name && cn in Listed(w.mem, n) && Admits(v, n) == Admits(w, n) + {cn})
    ensures Leftover(v, n) == Leftover(w, n)
  {
    hide Admits, Listed;
  }

  lemma DeleteStoppedUsers(d: Dirs, w: State, name: string, cn: string, k: nat, n: string)
    requires Sound(d, w) && Synced(w) && cn in ClientsOf(w.mem, name) && k <= |DeleteClientPlan(w, name, cn).steps|
    ensures var steps := DeleteClientPlan(w, name, cn).steps;
            var without := Admits(w, n) - (if n == name && cn in Listed(w.mem, name) then {cn} else {});
            && Admits(Exec(w, steps[..k]), n) in {Admits(w, n), without}
            && (k == |steps| ==> Admits(Exec(w, steps[..k]), n) == without)
  {
    hide *;
    var steps := DeleteClientPlan(w, name, cn).steps;
    var after := DropClient(w.mem, name, cn);
    var revoke, password, pin := DeleteClientParts(d, w, name, cn);
    var tail := pin + Flush(after);
    TailLeaves(pin, after);
    AllButHas(InPasswords);
    WithinMore(revoke, {InRevoked, Elsewhere}, AllBut(InPasswords));
    assert steps == revoke + password + tail;
    DeletePasswordIs(w.disk, name, cn);
    ListedIff(w.mem, name, cn);
    FlushNotEmpty(after);
    PasswordAt(w, revoke, password, tail, k);
    var u := Exec(w, steps[..k]);
    if password != [] && k > |revoke| {
      UsersSet(w, u, name, password[0].text, n);
      UsersAre(w, name);
    } else {
      UsersKept(w, u, n);
      UsersAre(w, name);
    }
  }

  lemma UsersAre(w: State, name: string)
    ensures Ocpasswd.FileUsers(PasswdOf(w.disk, name)) == Admits(w, name)
  {
    hide Ocpasswd.FileUsers, PasswdOf;
  }

  lemma ListedIff(data: StoreData, name: string, cn: string)
    requires cn in ClientsOf(data, name)
    ensures cn in Listed(data, name) <==> UsesPassword(ClientsOf(data, name)[cn].authMode)
  {
  }

  lemma DeletePasswordIs(disk: Disk, name: string, cn: string)
    ensures var steps, users := DeletePassword(disk, name, cn), Ocpasswd.FileUsers(PasswdOf(disk, name));
            if cn in users then
              && |steps| == 1 && steps[0].WritePasswd? && steps[0].name == name
              && Ocpasswd.FileUsers(Some(steps[0].text)) == users - {cn}
            else steps == []
  {
    hide Ocpasswd.FileUsers, Ocpasswd.Deleted, PasswdOf;
    var file := PasswdOf(disk, name);
    Ocpasswd.DeleteLosesExactlyOne(file, cn);
    if cn in Ocpasswd.FileUsers(file) {
      FileThere(file, cn);
    }
  }

  lemma FileThere(file: Option<string>, cn: string)
    requires cn in Ocpasswd.FileUsers(file)
    ensures Ocpasswd.Deleted(file, cn).Some?
  {
  }

  lemma DroppedClientListed(data: StoreData, name: string, cn: string, n: string)
    ensures Listed(DropClient(data, name, cn), n) == Listed(data, n) - (if n == name then {cn} else {})
  {
  }

  lemma DeleteClientLeft(d: Dirs, w: State, name: string, cn: string, o: Outside, k: nat, torn: bool, n: string)
    requires Sound(d, w) && Synced(w) && Admissible(w, DeleteClient(name, cn), o)
    requires k <= |DeleteClientPlan(w, name, cn).steps|
    ensures Leftover(Crashed(w, DeleteClientPlan(w, name, cn).steps, k, torn), n) == Leftover(w, n)
  {
    hide *;
    var r := DeleteClient(name, cn);
    var steps := DeleteClientPlan(w, name, cn).steps;
    var v := Crashed(w, steps, k, torn);
    PlanIs(d, w, r, o);
    StoppedFiles(w, steps, k, torn);
    if cn in ClientsOf(w.mem, name) {
      StoppedMemory(d, w, r, o, k, torn);
      DeleteStoppedStore(d, w, name, cn, k);
      DeleteStoppedUsers(d, w, name, cn, k, n);
      UsersKept(Exec(w, steps[..k]), v, n);
      DroppedClientListed(w.mem, name, cn, n);
      DeleteClientLeftBy(w, v, name, cn, n, k == |steps|);
    } else {
      UnknownDelete(w, name, cn);
      assert steps[..k] == [];
      ExecNone(w);
      SameLeft(w, v, n);
    }
  }

  lemma DeleteClientLeftBy(w: State, v: State, name: string, cn: string, n: string, done: bool)
    requires var without := Admits(w, n) - (if n == name && cn in Listed(w.mem, name) then {cn} else {});
             && Admits(v, n) in {Admits(w, n), without} && (done ==> Admits(v, n) == without)
             && Listed(v.mem, n) == Listed(w.mem, n) - (if done && n == name then {cn} else {})
    ensures Leftover(v, n) == Leftover(w, n)
  {
    hide Admits, Listed;
  }

  // ------------------------------------------------ whole runs

  lemma StoppedLeft(d: Dirs, w: State, r: Request, o: Outside, k: nat, torn: bool, n: string)
    requires Sound(d, w) && Synced(w) && Admissible(w, r, o) && ToolAdds(w, r, o) && k <= |Plan(d, w, r, o).steps|
    ensures var steps := Plan(d, w, r, o).steps;
            Leftover(Crashed(w, steps, k, torn), n) == LeftBy(Leftover(w, n), w, r, o, k, |steps|, n)
  {
    hide Sound, Synced, Admissible, ToolAdds, Leftover, Crashed, CreateInstancePlan, PatchInstancePlan,
         DeleteInstancePlan, CreateClientPlan, PatchClientPlan, DeleteClientPlan, Exec, Admits, SetsPassword, Before,
         PinOk, Text.Trim;
    match r
    case CreateInstance(req) => CreateInstanceLeft(d, w, req, o, k, torn, n);
    case PatchInstance(name, body) => PatchInstanceLeft(d, w, name, body, o, k, torn, n);
    case DeleteInstance(name) => DeleteInstanceLeft(d, w, name, o, k, torn, n);
    case CreateClient(name, req) => CreateClientLeft(d, w, name, req, o, k, torn, n);
    case PatchClient(name, cn, body) => PatchClientLeft(d, w, name, cn, body, o, k, torn, n);
    case DeleteClient(name, cn) => DeleteClientLeft(d, w, name, cn, o, k, torn, n);
  }

  // The tool adds what it is asked to add at every event of a run.
  ghost predicate ToolRun(d: Dirs, w: State, events: seq<Event>)
    requires IsRun(d, w, events)
    decreases |events|
  {
    events == []
    || ((events[0].ApiCall? || events[0].CrashInCall? ==> ToolAdds(w, events[0].r, events[0].o))
        && ToolRun(d, Next(d, w, events[0]), events[1..]))
  }

  function LeftByEvent(left: set<string>, d: Dirs, w: State, e: Event, n: string): set<string> {
    match e
    case ApiCall(r, o) => LeftBy(left, w, r, o, |Plan(d, w, r, o).steps|, |Plan(d, w, r, o).steps|, n)
    case CrashInCall(r, o, k, _) => LeftBy(left, w, r, o, k, |Plan(d, w, r, o).steps|, n)
    case _ => left
  }

  // The leftovers after a run.
  ghost function LeftAfter(d: Dirs, w: State, events: seq<Event>, left: set<string>, n: string): set<string>
    requires IsRun(d, w, events)
    decreases |events|
  {
    if events == [] then left
    else LeftAfter(d, Next(d, w, events[0]), events[1..], LeftByEvent(left, d, w, events[0], n), n)
  }

  lemma NextLeft(d: Dirs, w: State, e: Event, n: string)
    requires Sound(d, w) && Synced(w) && Possible(d, w, e)
    requires e.ApiCall? || e.CrashInCall? ==> ToolAdds(w, e.r, e.o)
    ensures Leftover(Next(d, w, e), n) == LeftByEvent(Leftover(w, n), d, w, e, n)
  {
    hide Sound, Admissible, BootAdmissible, Plan, ReconcilePlan, LeftBy, Leftover, Exec, Crashed, Rebooted, ToolAdds;
    match e
    case ApiCall(r, o) =>
      StoppedLeft(d, w, r, o, |Plan(d, w, r, o).steps|, false, n);
      StoppedMemory(d, w, r, o, |Plan(d, w, r, o).steps|, false);
      SameStateLeft(Crashed(w, Plan(d, w, r, o).steps, |Plan(d, w, r, o).steps|, false), Next(d, w, e), n);
    case CrashInCall(r, o, k, torn) => StoppedLeft(d, w, r, o, k, torn, n);
    case Reconcile(b) => ReconcileLeft(d, w, b, 0, n);
    case CrashInReconcile(b, k) => ReconcileLeft(d, w, b, k, n);
    case Dies(name) => SameStateLeft(w, Died(w, name), n);
    case Restart => SameStateLeft(w, Down(w, w.disk), n);
  }

  lemma SameStateLeft(w: State, v: State, n: string)
    requires v.mem == w.mem && v.disk.passwd == w.disk.passwd
    ensures Leftover(v, n) == Leftover(w, n)
  {
    hide Listed;
    SameLeft(w, v, n);
  }

  lemma ReconcileLeft(d: Dirs, w: State, b: Boot, k: nat, n: string)
    requires Synced(w) && k <= |ReconcilePlan(d, w.mem, b, b.order)|
    ensures Leftover(Crashed(w, ReconcilePlan(d, w.mem, b, b.order), k, false), n) == Leftover(w, n)
    ensures Leftover(Rebooted(d, w, b), n) == Leftover(w, n)
  {
    hide *;
    var steps := ReconcilePlan(d, w.mem, b, b.order);
    ReconcileWithin(d, w.mem, b, b.order);
    AllButHas(InPasswords);
    FilesHas();
    WithinMore(steps, {Elsewhere}, AllBut(InPasswords));
    WithinMore(steps, {Elsewhere}, FILES);
    WithinPrefix(steps, k, AllBut(InPasswords));
    WithinPrefix(steps, k, FILES);
    PasswordsLeft(w, steps);
    PasswordsLeft(w, steps[..k]);
    MemoryLeft(w, steps);
    WithinLeaves(w, steps[..k], FILES);
    StoreLeft(w, Exec(w, steps[..k]));
    StoppedFiles(w, steps, k, false);
    RebootedIs(d, w, b);
    SameStateLeft(w, Crashed(w, steps, k, false), n);
    SameStateLeft(w, Rebooted(d, w, b), n);
  }

  lemma {:induction false} ReconcileWithin(d: Dirs, mem: StoreData, b: Boot, order: seq<string>)
    ensures Within(ReconcilePlan(d, mem, b, order), {Elsewhere})
  {
    hide Within, PlaceOf, StartInstance;
    NoneWithin({Elsewhere});
    if order != [] {
      var m := order[0];
      if m in mem.instances {
        StartWithin(d, mem, mem.instances[m], ClientOrder(b, m), m in b.starts, false);
      }
      ReconcileWithin(d, mem, b, order[1..]);
      WithinAppend(ReconcileOne(d, mem, b, m), ReconcilePlan(d, mem, b, order[1..]), {Elsewhere});
    }
  }

  /**
   * In every run, crashes anywhere, with a tool that adds the users it is asked to
   * add: the users a password file admits although no record lists them are those
   * of deleted instances and of clients whose creation failed on the pin or was cut
   * after the password, until a client of that name is created.
   */
  lemma {:induction false} RunLeftovers(d: Dirs, w: State, events: seq<Event>, n: string)
    requires Sound(d, w) && Synced(w) && IsRun(d, w, events) && ToolRun(d, w, events)
    ensures Leftover(After(d, w, events), n) == LeftAfter(d, w, events, Leftover(w, n), n)
    decreases |events|
  {
    hide Sound, Synced, Possible, Next, Leftover, LeftByEvent, Accumulates, AllRevoked, Lost, ToolAdds;
    if events != [] {
      NextLeft(d, w, events[0], n);
      NextSound(d, w, events[0]);
      RunLeftovers(d, Next(d, w, events[0]), events[1..], n);
    }
  }

  // ------------------------------------------------ single calls

  /** Deleting a password client takes exactly its name out of the instance's password file. */
  lemma DeletedUserGone(d: Dirs, w: State, name: string, cn: string)
    requires Sound(d, w) && Synced(w) && cn in Listed(w.mem, name)
    ensures DeleteClientPlan(w, name, cn).error.None?
    ensures Admits(Exec(w, DeleteClientPlan(w, name, cn).steps), name) == Admits(w, name) - {cn}
  {
    hide *;
    var steps := DeleteClientPlan(w, name, cn).steps;
    ListedStored(w.mem, name, cn);
    var revoke, password, pin := DeleteClientParts(d, w, name, cn);
    DeleteStoppedUsers(d, w, name, cn, |steps|, name);
    assert steps[..|steps|] == steps;
  }

  // The file of a password client after its deletion.
  lemma DeletedText(d: Dirs, w: State, name: string, cn: string)
    requires Sound(d, w) && Synced(w) && cn in ClientsOf(w.mem, name)
    requires UsesPassword(ClientsOf(w.mem, name)[cn].authMode)
    ensures PasswdOf(Exec(w, DeleteClientPlan(w, name, cn).steps).disk, name)
         == Ocpasswd.Deleted(PasswdOf(w.disk, name), cn)
  {
    hide *;
    var steps := DeleteClientPlan(w, name, cn).steps;
    var after := DropClient(w.mem, name, cn);
    var revoke, password, pin := DeleteClientParts(d, w, name, cn);
    TailLeaves(pin, after);
    AllButHas(InPasswords);
    WithinMore(revoke, {InRevoked, Elsewhere}, AllBut(InPasswords));
    assert steps == revoke + password + (pin + Flush(after));
    DeletePasswordIs(w.disk, name, cn);
    FlushNotEmpty(after);
    PasswordAt(w, revoke, password, pin + Flush(after), |steps|);
    assert steps[..|steps|] == steps;
    DeletedThere(w, Exec(w, steps), name, cn);
  }

  lemma DeletedThere(w: State, v: State, name: string, cn: string)
    requires var password := DeletePassword(w.disk, name, cn);
             v.disk.passwd == (if password != [] then w.disk.passwd[password[0].name := password[0].text]
                               else w.disk.passwd)
    requires forall i | 0 <= i < |DeletePassword(w.disk, name, cn)| :: DeletePassword(w.disk, name, cn)[i].WritePasswd?
    ensures PasswdOf(v.disk, name) == Ocpasswd.Deleted(PasswdOf(w.disk, name), cn)
  {
    hide Ocpasswd.UsersOf, Ocpasswd.ScanLines, Ocpasswd.Others, Ocpasswd.WriteLines;
  }

  /**
   * Deleting a password client from a file of user lines, comments and malformed
   * lines leaves that file without the lines of the client, byte for byte.
   */
  lemma DeletedFromFile(d: Dirs, w: State, name: string, cn: string, ls: seq<Ocpasswd.FileLine>)
    requires Sound(d, w) && Synced(w) && cn in ClientsOf(w.mem, name)
    requires ClientsOf(w.mem, name)[cn].authMode == Password || ClientsOf(w.mem, name)[cn].authMode == Both
    requires Ocpasswd.AllProper(ls) && PasswdOf(w.disk, name) == Some(Ocpasswd.PrintFile(ls))
    ensures PasswdOf(Exec(w, DeleteClientPlan(w, name, cn).steps).disk, name)
         == Some(Ocpasswd.PrintFile(Ocpasswd.Without(ls, cn)))
  {
    hide Exec, Sound, Synced, DeleteClientPlan, PasswdOf, Ocpasswd.Deleted, Ocpasswd.PrintFile, Ocpasswd.Without,
         Ocpasswd.AllProper;
    DeletedText(d, w, name, cn);
    Ocpasswd.PrintedDeletion(ls, cn);
  }

  lemma ListedStored(data: StoreData, name: string, cn: string)
    requires cn in Listed(data, name)
    ensures cn in ClientsOf(data, name)
  {
    hide ClientsOf, UsesPassword;
  }

  /**
   * Deleting an instance leaves its password file, and creating one under the same
   * name takes it over: every user in it is admitted and none is listed.
   */
  lemma PasswordsOutliveInstance(d: Dirs, w: State, name: string, req: InstanceRequest, o: Outside)
    requires Sound(d, w) && Synced(w) && Admissible(w, DeleteInstance(name), o) && NewInstance(req).name == name
    requires var u := Exec(w, DeleteInstancePlan(w, name).steps); CreateInstancePlan(d, u, req, o).error.None?
    ensures var u := Exec(w, DeleteInstancePlan(w, name).steps);
            var v := Exec(u, CreateInstancePlan(d, u, req, o).steps);
            && PasswdOf(v.disk, name) == PasswdOf(w.disk, name)
            && name in v.mem.instances && ClientsOf(v.mem, name) == map[]
  {
    hide *;
    var u := Exec(w, DeleteInstancePlan(w, name).steps);
    var v := Exec(u, CreateInstancePlan(d, u, req, o).steps);
    var a := DeleteInstanceParts(w, name);
    var b, c := CreateInstanceParts(d, u, req, o);
    NoneWithin({Elsewhere});
    CommitLeaves(a, DropInstance(w.mem, name), []);
    assert a + (Flush(DropInstance(w.mem, name)) + []) == a + Flush(DropInstance(w.mem, name));
    CommitLeaves(b, PutInstance(u.mem, NewInstance(req)), c);
    AllButHas(InPasswords);
    NoneWithin(AllBut(InPasswords));
    PasswordsLeft(w, DeleteInstancePlan(w, name).steps);
    PasswordsLeft(u, CreateInstancePlan(d, u, req, o).steps);
    SamePasswd(w, v, name);
    FilesHas();
    WithinMore(a, {Elsewhere}, FILES);
    CommitsLast(w, a, DropInstance(w.mem, name), 0);
    ExecNone(w);
    PlanIs(d, w, DeleteInstance(name), o);
    CompletedSound(d, w, DeleteInstance(name), o);
    CreateInstanceKeeps(d, u, req, o);
    SoundShape(d, w, name);
    Recreated(w.mem, NewInstance(req));
  }

  lemma SamePasswd(w: State, v: State, name: string)
    requires v.disk.passwd == w.disk.passwd
    ensures PasswdOf(v.disk, name) == PasswdOf(w.disk, name)
  {
  }

  lemma Recreated(data: StoreData, rec: Instance)
    requires rec.name !in data.instances ==> rec.name !in data.clients
    ensures var post := PutInstance(if rec.name in data.instances then DropInstance(data, rec.name) else data, rec);
            rec.name in post.instances && ClientsOf(post, rec.name) == map[]
  {
  }
}
