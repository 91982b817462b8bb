/** The records of the public contract (pkg/api) that are stored, and the request bodies that change them. */
module Records {
  import opened Wrappers
  import Text

  // AuthMode is free text on the wire; Other stands for any text the program gives no meaning to.
  datatype AuthMode = Unset | Cert | Password | Both | Other(text: string)

  predicate UsesCert(mode: AuthMode) {
    mode.Cert? || mode.Both?
  }

  predicate UsesPassword(mode: AuthMode) {
    mode.Password? || mode.Both?
  }

  datatype Camouflage = Camouflage(enabled: bool, secret: string, realm: string, decoyHtml: string)

  // Up, ClientCount and SessionCount are observed on read and never stored.
  datatype Instance = Instance(
    name: string,
    listen: string,
    dtls: bool,
    tcpPort: int,
    proxyProto: bool,
    poolCidr: string,
    poolCidrV6: string,
    publicEndpoint: string,
    localBind: string,
    authMode: AuthMode,
    camouflage: Camouflage,
    dns: seq<string>,
    routes: seq<string>,
    enabled: bool)

  datatype Client = Client(
    displayName: string,
    commonName: string,
    instanceName: string,
    authMode: AuthMode,
    staticIp: string,
    enabled: bool,
    suspended: bool,
    certSerial: string)

  datatype InstanceRequest = InstanceRequest(
    name: string,
    listen: string,
    dtls: Option<bool>,
    tcpPort: int,
    proxyProto: Option<bool>,
    poolCidr: string,
    poolCidrV6: string,
    publicEndpoint: string,
    localBind: string,
    authMode: AuthMode,
    camouflage: Option<Camouflage>,
    dns: seq<string>,
    routes: seq<string>,
    enabled: Option<bool>,
    createCaIfEmpty: bool)

  datatype ClientRequest = ClientRequest(
    displayName: string,
    commonName: string,
    authMode: AuthMode,
    staticIp: string,
    password: string)

  // A decoded JSON body: map[string]any.
  datatype Json =
    | JNull
    | JBool(b: bool)
    | JNumber(n: real)
    | JString(s: string)
    | JArray(items: seq<Json>)
    | JObject(fields: map<string, Json>)

  type Body = map<string, Json>

  function OrString(v: string, def: string): string {
    if Text.Blank(v) then def else v
  }

  function OrAuth(v: AuthMode, def: AuthMode): AuthMode {
    if v.Unset? then def else v
  }

  function BoolOr(v: Option<bool>, def: bool): bool {
    match v
    case None => def
    case Some(b) => b
  }

  // The record CreateInstance builds, under its trimmed name.
  function NewInstance(req: InstanceRequest): Instance {
    Instance(
      Text.Trim(req.name),
      OrString(req.listen, ":443"),
      BoolOr(req.dtls, true),
      req.tcpPort,
      BoolOr(req.proxyProto, false),
      req.poolCidr,
      req.poolCidrV6,
      req.publicEndpoint,
      req.localBind,
      OrAuth(req.authMode, Cert),
      (match req.camouflage case Some(c) => c case None => Camouflage(false, "", "", "")),
      req.dns,
      req.routes,
      BoolOr(req.enabled, true))
  }

  // int(v) for a float64: truncation toward zero.
  function Truncate(v: real): int {
    if v < 0.0 then -((-v).Floor) else v.Floor
  }

  // toStrings: the string elements, the others dropped.
  function ToStrings(items: seq<Json>): seq<string> {
    if items == [] then []
    else (if items[0].JString? then [items[0].s] else []) + ToStrings(items[1..])
  }

  function StringField(body: Body, key: string, current: string): string {
    if key in body && body[key].JString? then body[key].s else current
  }

  function BoolField(body: Body, key: string, current: bool): bool {
    if key in body && body[key].JBool? then body[key].b else current
  }

  function IntField(body: Body, key: string, current: int): int {
    if key in body && body[key].JNumber? then Truncate(body[key].n) else current
  }

  function ListField(body: Body, key: string, current: seq<string>): seq<string> {
    if key in body && body[key].JArray? then ToStrings(body[key].items) else current
  }

  function PatchedCamouflage(c: Camouflage, body: Body): Camouflage {
    if "camouflage" in body && body["camouflage"].JObject? then
      var cam := body["camouflage"].fields;
      c.(enabled := BoolField(cam, "enabled", c.enabled),
         secret := StringField(cam, "secret", c.secret),
         realm := StringField(cam, "realm", c.realm))
    else c
  }

  // applyInstancePatch as a function of the old record.
  function Patched(rec: Instance, body: Body): Instance {
    rec.(
      localBind := StringField(body, "local_bind", rec.localBind),
      publicEndpoint := StringField(body, "public_endpoint", rec.publicEndpoint),
      enabled := BoolField(body, "enabled", rec.enabled),
      dtls := BoolField(body, "dtls", rec.dtls),
      tcpPort := IntField(body, "tcp_port", rec.tcpPort),
      proxyProto := BoolField(body, "proxy_proto", rec.proxyProto),
      dns := ListField(body, "dns", rec.dns),
      routes := ListField(body, "routes", rec.routes),
      camouflage := PatchedCamouflage(rec.camouflage, body))
  }

  function PatchedClient(c: Client, body: Body): Client {
    c.(
      staticIp := StringField(body, "static_ip", c.staticIp),
      suspended := BoolField(body, "suspended", c.suspended),
      enabled := BoolField(body, "enabled", c.enabled))
  }

  /** applyInstancePatch: each recognised field of the right JSON type is assigned, one after the other. */
  method ApplyInstancePatch(before: Instance, body: Body) returns (rec: Instance)
    ensures rec == Patched(before, body)
  {
    rec := before;
    rec := rec.(localBind := StringField(body, "local_bind", rec.localBind));
    rec := rec.(publicEndpoint := StringField(body, "public_endpoint", rec.publicEndpoint));
    rec := rec.(enabled := BoolField(body, "enabled", rec.enabled));
    rec := rec.(dtls := BoolField(body, "dtls", rec.dtls));
    rec := rec.(tcpPort := IntField(body, "tcp_port", rec.tcpPort));
    rec := rec.(proxyProto := BoolField(body, "proxy_proto", rec.proxyProto));
    rec := rec.(dns := ListField(body, "dns", rec.dns));
    rec := rec.(routes := ListField(body, "routes", rec.routes));
    rec := rec.(camouflage := PatchedCamouflage(rec.camouflage, body));
  }

  // What listenersDiffer compares.
  predicate ListenersDiffer(a: Instance, b: Instance) {
    || a.listen != b.listen
    || a.tcpPort != b.tcpPort
    || a.dtls != b.dtls
    || a.localBind != b.localBind
    || a.proxyProto != b.proxyProto
  }

  /** A patch applied a second time changes nothing, and never touches the identity or the pool of the instance. */
  lemma PatchIdempotent(rec: Instance, body: Body)
    ensures Patched(Patched(rec, body), body) == Patched(rec, body)
    ensures !ListenersDiffer(Patched(rec, body), Patched(Patched(rec, body), body))
    ensures Patched(rec, body).name == rec.name
    ensures Patched(rec, body).authMode == rec.authMode
    ensures Patched(rec, body).poolCidr == rec.poolCidr
    ensures Patched(rec, body).listen == rec.listen
  {
  }

  // The keys a patch understands.
  const PATCH_KEYS := {"local_bind", "public_endpoint", "enabled", "dtls", "tcp_port", "proxy_proto", "dns", "routes",
                       "camouflage"}

  /**
   * Patches without a common key can be sent in either order, or as one.
   */
  lemma PatchesCombine(rec: Instance, a: Body, b: Body)
    requires a.Keys !! b.Keys
    ensures Patched(Patched(rec, a), b) == Patched(rec, a + b)
    ensures Patched(Patched(rec, a), b) == Patched(Patched(rec, b), a)
  {
    hide StringField, BoolField, IntField, ListField, PatchedCamouflage;
    FieldsCombine(rec, a, b);
    FieldsCombine(rec, b, a);
    assert a + b == b + a;
  }

  lemma StringCombines(key: string, current: string, a: Body, b: Body)
    requires a.Keys !! b.Keys
    ensures StringField(b, key, StringField(a, key, current)) == StringField(a + b, key, current)
  {
  }

  lemma BoolCombines(key: string, current: bool, a: Body, b: Body)
    requires a.Keys !! b.Keys
    ensures BoolField(b, key, BoolField(a, key, current)) == BoolField(a + b, key, current)
  {
  }

  lemma IntCombines(key: string, current: int, a: Body, b: Body)
    requires a.Keys !! b.Keys
    ensures IntField(b, key, IntField(a, key, current)) == IntField(a + b, key, current)
  {
    hide Truncate;
  }

  lemma ListCombines(key: string, current: seq<string>, a: Body, b: Body)
    requires a.Keys !! b.Keys
    ensures ListField(b, key, ListField(a, key, current)) == ListField(a + b, key, current)
  {
    hide ToStrings;
  }

  lemma CamouflageCombines(c: Camouflage, a: Body, b: Body)
    requires a.Keys !! b.Keys
    ensures PatchedCamouflage(PatchedCamouflage(c, a), b) == PatchedCamouflage(c, a + b)
  {
    hide StringField, BoolField;
  }

  lemma FieldsCombine(rec: Instance, a: Body, b: Body)
    requires a.Keys !! b.Keys
    ensures Patched(Patched(rec, a), b) == Patched(rec, a + b)
  {
    hide StringField, BoolField, IntField, ListField, PatchedCamouflage;
    StringCombines("local_bind", rec.localBind, a, b);
    StringCombines("public_endpoint", rec.publicEndpoint, a, b);
    BoolCombines("enabled", rec.enabled, a, b);
    BoolCombines("dtls", rec.dtls, a, b);
    IntCombines("tcp_port", rec.tcpPort, a, b);
    BoolCombines("proxy_proto", rec.proxyProto, a, b);
    ListCombines("dns", rec.dns, a, b);
    ListCombines("routes", rec.routes, a, b);
    CamouflageCombines(rec.camouflage, a, b);
  }

  /** What a patch does to a record depends on the nine known keys alone. */
  lemma OnlyKnownKeys(rec: Instance, a: Body, b: Body)
    requires forall key | key in PATCH_KEYS :: (key in a <==> key in b) && (key in a ==> a[key] == b[key])
    ensures Patched(rec, a) == Patched(rec, b)
  {
    var keys := ["local_bind", "public_endpoint", "enabled", "dtls", "tcp_port", "proxy_proto", "dns", "routes",
                 "camouflage"];
    assert forall i | 0 <= i < |keys| :: keys[i] in PATCH_KEYS;
    hide PATCH_KEYS, Truncate, ToStrings;
    assert keys[0] == "local_bind" && keys[1] == "public_endpoint" && keys[2] == "enabled" && keys[3] == "dtls";
    assert keys[4] == "tcp_port" && keys[5] == "proxy_proto" && keys[6] == "dns" && keys[7] == "routes";
    assert keys[8] == "camouflage";
  }

  // No key of the body that names a listener setting.
  predicate LeavesListeners(body: Body) {
    && "local_bind" !in body && "dtls" !in body && "tcp_port" !in body && "proxy_proto" !in body
  }
}
