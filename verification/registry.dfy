// What the registry operations compute: names, organisations, modules and routes.
// Each `(Db, Result)` function returns the working tables as the handler leaves them,
// also when it fails half-way; the message machine decides what is committed.
module Registry {
  import opened Wrappers
  import opened Errors
  import opened Text
  import opened Json
  import opened Canonical
  import opened Names
  import opened Dials
  import opened Database

  const CORE_MODULE := "modulr.core"
  const MAX_RESOLVED_ID := 512

  type Outcome = Result<Reply, ErrorCode>

  function ValidateResolvedId(raw: string): Result<string, ErrorCode> {
    var s := Strip(raw);
    if s == "" || |s| > MAX_RESOLVED_ID then Failure(PayloadInvalid) else Success(s)
  }

  /** A JSON-object field, stored as canonical text. */
  function CanonicalDict(p: JsonValue, key: string): Result<Option<string>, ErrorCode> {
    var v :- OptionalDict(p, key);
    Success(if v.Some? then Some(CanonicalJsonStr(v.value)) else None)
  }

  function CanonicalAny(p: JsonValue, key: string): Option<string> {
    match OptionalValue(p, key)
    case None => None
    case Some(v) => Some(CanonicalJsonStr(v))
  }

  // ---- names --------------------------------------------------------------

  datatype NameArgs = NameArgs(name: string, resolvedId: string, routeJson: Option<string>, metadataJson: Option<string>)

  function ParseRegisterName(p: JsonValue): Result<NameArgs, ErrorCode> {
    var rawName :- RequireStr(p, "name");
    var name :- ValidateResolve(rawName);
    var rawId :- RequireStr(p, "resolved_id");
    var resolvedId :- ValidateResolvedId(rawId);
    var route :- CanonicalDict(p, "route");
    var metadata :- CanonicalDict(p, "metadata");
    Success(NameArgs(name, resolvedId, route, metadata))
  }

  predicate BindingMatches(row: NameRow, a: NameArgs) {
    row.resolvedId == a.resolvedId && row.routeJson == a.routeJson && row.metadataJson == a.metadataJson
  }

  /** Insert, or accept an identical row: the table and the row's creation time. */
  function BindName(names: map<string, NameRow>, a: NameArgs, now: int): Result<(map<string, NameRow>, int), ErrorCode> {
    if a.name in names then
      if BindingMatches(names[a.name], a) then Success((names, names[a.name].createdAt)) else Failure(NameAlreadyBound)
    else Success((names[a.name := NameRow(a.resolvedId, a.routeJson, a.metadataJson, now)], now))
  }

  function RegisterName(db: Db, settings: Settings, m: Inbound, now: int): (Db, Outcome) {
    if !SenderIsBootstrap(settings, db.genesis, m.senderKey) then (db, Failure(Unauthorized))
    else match ParseRegisterName(m.payload)
      case Failure(e) => (db, Failure(e))
      case Success(a) =>
        match BindName(db.names, a, now)
        case Failure(e) => (db, Failure(e))
        case Success((names, createdAt)) =>
          (db.(names := names), Success(NameReply(a, createdAt)))
  }

  function NameReply(a: NameArgs, createdAt: int): Reply {
    Reply("NAME_REGISTERED", ObjectOf([
      Pair("name", JStr(a.name)), Pair("resolved_id", JStr(a.resolvedId)), Pair("created_at", JInt(createdAt))]))
  }

  // ---- organisations and modules --------------------------------------------

  datatype OrgArgs = OrgArgs(binding: NameArgs, metadataGiven: bool, signingKey: Option<string>)

  function OrgName(p: JsonValue): (r: Result<string, ErrorCode>)
    ensures r.Success? ==> ValidateApex(r.value, InvalidName) == Success(r.value)
  {
    var raw :- RequireStr(p, "organization_name");
    var name :- ValidateApex(raw, InvalidName);
    ApexIsResolvable(raw, InvalidName);
    Success(name)
  }

  function ParseOrg(p: JsonValue): (r: Result<OrgArgs, ErrorCode>)
    ensures r.Success? && r.value.signingKey.Some? ==> r.value.binding.routeJson.Some?
  {
    var name :- OrgName(p);
    var rawId :- RequireStr(p, "resolved_id");
    var resolvedId :- ValidateResolvedId(rawId);
    var route :- CanonicalDict(p, "route");
    var metadata :- CanonicalDict(p, "metadata");
    var key :- OptionalStr(p, "signing_public_key");
    if key.Some? && (Strip(key.value) == "" || route.None?) then Failure(PayloadInvalid)
    else
      Success(OrgArgs(NameArgs(name, resolvedId, route, metadata), Field(p, "metadata").Some?,
                      if key.Some? then Some(Strip(key.value)) else None))
  }

  /** Bind the organisation name; a bound one may refresh route and metadata when it publishes a module. */
  function BindOrg(names: map<string, NameRow>, a: OrgArgs, now: int): Result<(map<string, NameRow>, int), ErrorCode> {
    var b := a.binding;
    if b.name in names && !BindingMatches(names[b.name], b)
       && a.signingKey.Some? && names[b.name].resolvedId == b.resolvedId
    then
      var row := names[b.name];
      var metadata := if a.metadataGiven then b.metadataJson else row.metadataJson;
      Success((names[b.name := row.(routeJson := b.routeJson, metadataJson := metadata)], row.createdAt))
    else BindName(names, b, now)
  }

  datatype ModuleArgs = ModuleArgs(version: string, capabilitiesJson: Option<string>, metadataJson: Option<string>)

  function ParseModule(p: JsonValue): Result<ModuleArgs, ErrorCode> {
    var mv :- OptionalStr(p, "module_version");
    var stripped := if mv.Some? then Strip(mv.value) else "";
    var capabilities :=
      if OptionalValue(p, "module_capabilities").Some? then CanonicalAny(p, "module_capabilities")
      else CanonicalAny(p, "capabilities");
    var metadata :- CanonicalDict(p, "module_metadata");
    Success(ModuleArgs(if stripped == "" then "1.0.0" else stripped, capabilities, metadata))
  }

  predicate ModuleMatches(row: ModuleRow, wanted: ModuleRow) {
    row.version == wanted.version && row.routeJson == wanted.routeJson
    && row.capabilitiesJson == wanted.capabilitiesJson && row.metadataJson == wanted.metadataJson
    && row.signingKey == wanted.signingKey && row.registeredBy == wanted.registeredBy
  }

  /** Insert the module row, or accept an identical one. */
  function AddModule(modules: map<string, ModuleRow>, row: ModuleRow): Result<map<string, ModuleRow>, ErrorCode> {
    var key := Lower(row.moduleName);
    if key !in modules then Success(modules[key := row])
    else if ModuleMatches(modules[key], row) then Success(modules)
    else Failure(ModuleAlreadyRegistered)
  }

  function PublishModule(modules: map<string, ModuleRow>, platform: Platform, m: Inbound, a: OrgArgs, now: int)
    : Result<map<string, ModuleRow>, ErrorCode>
    requires a.signingKey.Some? && a.binding.routeJson.Some?
  {
    var name := Lower(a.binding.name);
    if name == CORE_MODULE then Failure(ModuleNameReserved)
    else
      var f :- ParseModule(m.payload);
      var key := a.signingKey.value;
      if !IsLowerHex(key, 64) || !platform.validKey(key) then Failure(PublicKeyInvalid)
      else
        AddModule(modules, ModuleRow(name, f.version, a.binding.routeJson.value, f.capabilitiesJson, f.metadataJson,
                                     key, m.senderId, now))
  }

  function RegisterOrg(db: Db, settings: Settings, platform: Platform, m: Inbound, now: int): (Db, Outcome) {
    if !SenderIsBootstrap(settings, db.genesis, m.senderKey) then (db, Failure(Unauthorized))
    else match ParseOrg(m.payload)
      case Failure(e) => (db, Failure(e))
      case Success(a) =>
        match BindOrg(db.names, a, now)
        case Failure(e) => (db, Failure(e))
        case Success((names, createdAt)) =>
          var bound := db.(names := names);
          if a.signingKey.None? then (bound, Success(OrgReply(a, createdAt, false)))
          else match PublishModule(db.modules, platform, m, a, now)
            case Failure(e) => (bound, Failure(e))
            case Success(modules) => (bound.(modules := modules), Success(OrgReply(a, createdAt, true)))
  }

  function OrgReply(a: OrgArgs, createdAt: int, published: bool): Reply {
    Reply("ORG_REGISTERED", ObjectOf([
      Pair("organization_name", JStr(a.binding.name)), Pair("resolved_id", JStr(a.binding.resolvedId)),
      Pair("created_at", JInt(createdAt)), Pair("module_registered", JBool(published))]))
  }

  // ---- routes ---------------------------------------------------------------

  function ParseModuleName(p: JsonValue, field: string): Result<string, ErrorCode> {
    var raw :- RequireStr(p, field);
    var apex :- ValidateApex(raw, InvalidModuleName);
    Success(Lower(apex))
  }

  datatype RouteArgs = RouteArgs(moduleId: string, routeType: string, route: string)

  function ParseRoute(p: JsonValue): Result<RouteArgs, ErrorCode> {
    var id :- ParseModuleName(p, "module_id");
    var routeType :- RequireStr(p, "route_type");
    var route :- RequireStr(p, "route");
    Success(RouteArgs(id, routeType, route))
  }

  datatype Mode = Merge | ReplaceScope

  function ParseMode(p: JsonValue): Result<Mode, ErrorCode> {
    match Field(p, "mode")
    case None => Success(ReplaceScope)
    case Some(Null) => Success(ReplaceScope)
    case Some(Str(s)) =>
      if Lower(Strip(s)) == "merge" then Success(Merge)
      else if Lower(Strip(s)) == "replace_all" then Success(ReplaceScope)
      else Failure(PayloadInvalid)
    case _ => Failure(PayloadInvalid)
  }

  datatype SubmitArgs = SubmitArgs(route: RouteArgs, mode: Mode, entry: DialEntry)

  function ParseSubmit(p: JsonValue): Result<SubmitArgs, ErrorCode> {
    var r :- ParseRoute(p);
    var mode :- ParseMode(p);
    var priority :- OptionalInt(p, "priority");
    var endpointKey :- OptionalKeyHex(p, "endpoint_signing_public_key_hex");
    Success(SubmitArgs(r, mode, DialEntry(r.routeType, r.route, if priority.Some? then priority.value else 0, endpointKey)))
  }

  /** Who may change the dials of a scope: a bootstrap key (for core when `guarded`), or the module's own key. */
  function RouteGuard(db: Db, settings: Settings, m: Inbound, moduleId: string, guarded: bool): Result<(), ErrorCode> {
    if moduleId == CORE_MODULE then
      if guarded && !SenderIsBootstrap(settings, db.genesis, m.senderKey) then Failure(Unauthorized) else Success(())
    else if moduleId !in db.modules then Failure(ModuleNotFound)
    else if db.modules[moduleId].signingKey != m.senderKey then Failure(IdentityMismatch)
    else Success(())
  }

  function RouteDocument(routeType: string, route: string): JsonValue {
    ObjectOf([Pair("route_type", JStr(routeType)), Pair("route", JStr(route))])
  }

  function RouteJson(r: DialRow): string { CanonicalJsonStr(RouteDocument(r.routeType, r.route)) }

  /** Point the single legacy route of a scope at its first dial, or clear it. */
  function SyncLegacy(db: Db, scope: string, now: int): Db {
    var rows := ListByScope(db.dials, scope);
    if scope == CORE_MODULE then
      db.(coreRoute := if |rows| == 0 then None else Some(CoreRoute(RouteJson(rows[0]), now)))
    else if scope !in db.modules then db
    else
      var text := if |rows| == 0 then CanonicalJsonStr(Obj([])) else RouteJson(rows[0]);
      db.(modules := db.modules[scope := db.modules[scope].(routeJson := text)])
  }

  /** SQLite integers have 64 bits; writing a wider one is an unexpected error. */
  predicate FitsColumn(n: int) { -0x8000_0000_0000_0000 <= n < 0x8000_0000_0000_0000 }

  function SubmitRoute(db: Db, settings: Settings, m: Inbound, now: int): (Db, Outcome) {
    match ParseSubmit(m.payload)
    case Failure(e) => (db, Failure(e))
    case Success(a) =>
      var scope := a.route.moduleId;
      match RouteGuard(db, settings, m, scope, a.mode.Merge?)
      case Failure(e) => (db, Failure(e))
      case Success(_) =>
        if !FitsColumn(a.entry.priority) then (db, Failure(InternalError))
        else
          var dials := if a.mode.Merge? then UpsertMerge(db.dials, scope, a.entry, now)
                       else ReplaceAll(db.dials, scope, [a.entry], now);
          (SyncLegacy(db.(dials := dials), scope, now), Success(SubmitReply(a)))
  }

  function SubmitReply(a: SubmitArgs): Reply {
    Reply("MODULE_ROUTE_SUBMITTED", ObjectOf([
      Pair("module_id", JStr(a.route.moduleId)), Pair("route_type", JStr(a.route.routeType)),
      Pair("route", JStr(a.route.route)), Pair("mode", JStr(if a.mode.Merge? then "merge" else "replace_all")),
      Pair("priority", JInt(a.entry.priority))]))
  }

  function RemoveRoute(db: Db, settings: Settings, m: Inbound, now: int): (Db, Outcome) {
    match ParseRoute(m.payload)
    case Failure(e) => (db, Failure(e))
    case Success(a) =>
      match RouteGuard(db, settings, m, a.moduleId, true)
      case Failure(e) => (db, Failure(e))
      case Success(_) =>
        var dials := DeleteDial(db.dials, a.moduleId, a.routeType, a.route);
        if |dials| == |db.dials| then (db, Failure(DialNotFound))
        else (SyncLegacy(db.(dials := dials), a.moduleId, now), Success(RemoveReply(a)))
  }

  function RemoveReply(a: RouteArgs): Reply {
    Reply("MODULE_ROUTE_REMOVED", ObjectOf([
      Pair("module_id", JStr(a.moduleId)), Pair("route_type", JStr(a.routeType)), Pair("route", JStr(a.route))]))
  }

  // ---- reads ----------------------------------------------------------------

  function ValueOrNull(text: Option<string>): Option<JsonValue> {
    if text.None? then Some(Null) else Load(text.value)
  }

  function NameEntry(name: string, row: NameRow): Option<JsonValue> {
    var route :- ValueOrNull(row.routeJson);
    var metadata :- ValueOrNull(row.metadataJson);
    Some(ObjectOf([
      Pair("name", JStr(name)), Pair("resolved_id", JStr(row.resolvedId)), Pair("route", route),
      Pair("metadata", metadata), Pair("created_at", JInt(row.createdAt))]))
  }

  function ResolveName(db: Db, m: Inbound): Outcome {
    var raw :- RequireStr(m.payload, "name");
    var name :- ValidateResolve(raw);
    if name !in db.names then Failure(NameNotFound)
    else match NameEntry(name, db.names[name])
      case None => Failure(InternalError)
      case Some(entry) => Success(Reply("NAME_RESOLVED", entry))
  }

  predicate IsLeast(n: string, s: set<string>) { n in s && forall k | k in s :: k == n || Less(n, k) }

  lemma LeastStep(s: set<string>, x: string, n: string)
    requires x in s && IsLeast(n, s - {x})
    ensures IsLeast(if Less(x, n) then x else n, s)
  {
    hide Less;
    forall k | k in s && k != x && k != n { LessIsOrder(x, n, k); }
    LessIsOrder(x, n, x);
  }

  lemma LessIsOrder(a: string, b: string, c: string)
    ensures Less(a, b) && Less(b, c) ==> Less(a, c)
    ensures a != b ==> (Less(a, b) <==> !Less(b, a))
    ensures !Less(a, a)
  {
    CompareIsTotalOrder(a, b, c);
    CompareIsTotalOrder(a, a, a);
  }

  lemma {:induction false} LeastExists(s: set<string>) returns (n: string)
    requires s != {}
    ensures IsLeast(n, s)
    decreases |s|
  {
    var x :| x in s;
    if s == {x} {
      n := x;
    } else {
      var m := LeastExists(s - {x});
      LeastStep(s, x, m);
      n := if Less(x, m) then x else m;
    }
  }

  lemma LeastIsUnique(s: set<string>, m: string, n: string)
    requires IsLeast(m, s) && IsLeast(n, s)
    ensures m == n
  {
    LessIsOrder(m, n, m);
  }

  lemma OneLeast(s: set<string>)
    requires s != {}
    ensures exists n :: IsLeast(n, s)
    ensures forall m, n | IsLeast(m, s) && IsLeast(n, s) :: m == n
  {
    var n := LeastExists(s);
    forall m, n | IsLeast(m, s) && IsLeast(n, s) ensures m == n { LeastIsUnique(s, m, n); }
  }

  function Least(s: set<string>): (n: string)
    requires s != {}
    ensures IsLeast(n, s)
  {
    OneLeast(s);
    var n :| IsLeast(n, s);
    n
  }

  /** `ORDER BY name`: the names of a set in code point order. */
  function SortedNames(s: set<string>): (r: seq<string>)
    ensures |r| == |s| && forall n :: n in r <==> n in s
    ensures forall i, j | 0 <= i < j < |r| :: Less(r[i], r[j])
    decreases |s|
  {
    if s == {} then []
    else
      var n := Least(s);
      var rest := SortedNames(s - {n});
      assert forall x :: x in [n] + rest <==> x == n || x in rest;
      [n] + rest
  }

  function NamesOf(names: map<string, NameRow>, resolvedId: string): seq<string> {
    SortedNames(set n | n in names && names[n].resolvedId == resolvedId)
  }

  function NameEntries(names: map<string, NameRow>, listed: seq<string>): (r: Option<seq<JsonValue>>)
    requires forall n | n in listed :: n in names
    ensures r.Some? ==> |r.value| == |listed|
    ensures r.Some? ==> forall i | 0 <= i < |listed| :: NameEntry(listed[i], names[listed[i]]) == Some(r.value[i])
  {
    if |listed| == 0 then Some([])
    else
      var first :- NameEntry(listed[0], names[listed[0]]);
      var rest :- NameEntries(names, listed[1..]);
      Some([first] + rest)
  }

  function ReverseResolve(db: Db, m: Inbound): Outcome {
    var raw :- RequireStr(m.payload, "resolved_id");
    var resolvedId :- ValidateResolvedId(raw);
    var listed := NamesOf(db.names, resolvedId);
    if |listed| == 0 then Failure(IdentityNotFound)
    else match NameEntries(db.names, listed)
      case None => Failure(InternalError)
      case Some(entries) =>
        Success(Reply("NAME_REVERSE_RESOLVED", ObjectOf([
          Pair("resolved_id", JStr(resolvedId)), Pair("names", ArrayOf(entries))])))
  }

  function DialWire(r: DialRow): JsonValue {
    var base := [Pair("id", JInt(r.id)), Pair("route_type", JStr(r.routeType)), Pair("route", JStr(r.route)),
                 Pair("priority", JInt(r.priority))];
    ObjectOf(if r.endpointKey.Some? then base + [Pair("endpoint_signing_public_key_hex", JStr(r.endpointKey.value))] else base)
  }

  function DialWires(rows: seq<DialRow>): (r: seq<JsonValue>) {
    seq(|rows|, i requires 0 <= i < |rows| => DialWire(rows[i]))
  }

  /** Built-in route of the coordination module: its advertised row when that is an object, else the default. */
  function CoreRouteDocument(db: Db): JsonValue {
    var fallback := ObjectOf([
      Pair("kind", JStr("modulr.core")),
      Pair("note", JStr("Built-in coordination plane; not stored in modules table."))]);
    if db.coreRoute.None? then fallback
    else match Load(db.coreRoute.value.routeJson)
      case Some(Obj(ms)) => Load(db.coreRoute.value.routeJson).value
      case _ => fallback
  }

  /** `get_module_route` */
  function GetModuleRoute(db: Db, m: Inbound): Outcome {
    var id :- ParseModuleName(m.payload, "module_id");
    var dials := ListByScope(db.dials, id);
    if id != CORE_MODULE && id !in db.modules then Failure(ModuleNotFound)
    else if id != CORE_MODULE && Load(db.modules[id].routeJson).None? then Failure(InvalidRoute)
    else
      var doc := if |dials| > 0 then RouteDocument(dials[0].routeType, dials[0].route)
                 else if id == CORE_MODULE then CoreRouteDocument(db)
                 else Load(db.modules[id].routeJson).value;
      var head := [Pair("module_id", JStr(if id == CORE_MODULE then id else db.modules[id].moduleName)),
                   Pair("route_detail", doc)];
      var rt, ro := Field(doc, "route_type"), Field(doc, "route");
      var flat := if rt.Some? && ro.Some? && rt.value.Str? && ro.value.Str?
                  then [Pair("route_type", rt.value), Pair("route", ro.value)] else [];
      Success(Reply("MODULE_ROUTE_RETURNED", ObjectOf(head + flat + [Pair("routes", ArrayOf(DialWires(dials)))])))
  }

  /** `lookup_module` */
  function LookupModule(db: Db, m: Inbound, version: string, now: int): Outcome {
    var name :- ParseModuleName(m.payload, "module_name");
    var dials := ListByScope(db.dials, name);
    if name == CORE_MODULE then
      var route := if |dials| > 0 then RouteDocument(dials[0].routeType, dials[0].route) else CoreRouteDocument(db);
      Success(Reply("MODULE_FOUND", ObjectOf(LookupPairs(
        name, version, route, dials, Null, BuiltinMetadata(), BUILTIN_CORE_KEY, "modulr:network:core", now))))
    else if name !in db.modules then Failure(ModuleNotFound)
    else
      var row := db.modules[name];
      var legacy := Load(row.routeJson);
      var capabilities := ValueOrNull(row.capabilitiesJson);
      var metadata := ValueOrNull(row.metadataJson);
      if (|dials| == 0 && legacy.None?) || capabilities.None? || metadata.None? then Failure(InternalError)
      else
        var route := if |dials| > 0 then RouteDocument(dials[0].routeType, dials[0].route) else legacy.value;
        Success(Reply("MODULE_FOUND", ObjectOf(LookupPairs(
          row.moduleName, row.version, route, dials, capabilities.value, metadata.value, row.signingKey,
          row.registeredBy, row.registeredAt))))
  }

  function LookupPairs(
    name: string, version: string, route: JsonValue, dials: seq<DialRow>, capabilities: JsonValue, metadata: JsonValue,
    signingKey: string, registeredBy: string, registeredAt: int): seq<JsonMember>
  {
    [ Pair("module_name", JStr(name)), Pair("module_version", JStr(version)), Pair("route", route),
      Pair("routes", ArrayOf(DialWires(dials))), Pair("capabilities", capabilities), Pair("metadata", metadata),
      Pair("signing_public_key", JStr(signingKey)), Pair("registered_by_sender_id", JStr(registeredBy)),
      Pair("registered_at", JInt(registeredAt))]
  }

  const BUILTIN_CORE_KEY := "17431606931fd51542508e671daec0e02f5c783de721a52142b965ac08001f6e"

  function BuiltinMetadata(): JsonValue { ObjectOf([Pair("builtin", JBool(true))]) }
}
