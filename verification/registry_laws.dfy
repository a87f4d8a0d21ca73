// What the registry operations keep and promise.
module RegistryLaws {
  import opened Wrappers
  import opened Errors
  import opened Text
  import opened Json
  import opened JsonRoundTrip
  import opened Canonical
  import opened Names
  import opened Dials
  import opened Database
  import opened Registry

  // ---- invariants -----------------------------------------------------------

  /** The redundant single route of a scope is its first dial; core's row exists exactly when core has dials. */
  ghost predicate LegacyInSync(db: Db) {
    && (db.coreRoute.Some? <==> |ListByScope(db.dials, CORE_MODULE)| > 0)
    && (db.coreRoute.Some? ==> db.coreRoute.value.routeJson == RouteJson(ListByScope(db.dials, CORE_MODULE)[0]))
    && forall scope :: scope != CORE_MODULE && |ListByScope(db.dials, scope)| > 0 ==>
         scope in db.modules && db.modules[scope].routeJson == RouteJson(ListByScope(db.dials, scope)[0])
  }

  predicate TextOk(text: Option<string>) { text.None? || Parse(text.value).Some? }

  predicate ModuleRowOk(name: string, row: ModuleRow) {
    name != CORE_MODULE && Lower(name) == name && row.moduleName == name
    && Parse(row.routeJson).Some? && TextOk(row.capabilitiesJson) && TextOk(row.metadataJson)
  }

  ghost predicate ModulesOk(modules: map<string, ModuleRow>) {
    forall n :: n in modules ==> ModuleRowOk(n, modules[n])
  }

  ghost predicate NamesOk(names: map<string, NameRow>) {
    forall n :: n in names ==> TextOk(names[n].routeJson) && TextOk(names[n].metadataJson)
  }

  /** Holds in every reachable state. */
  ghost predicate RegistryOk(db: Db) {
    TableOk(db.dials) && LegacyInSync(db) && ModulesOk(db.modules) && NamesOk(db.names)
  }

  /** Every module is published under the lower-case form of a bound name. */
  ghost predicate ModulesAreBound(db: Db) {
    forall k :: k in db.modules ==> exists n :: n in db.names && Lower(n) == k
  }

  /** Names and module identities are never rebound. */
  ghost predicate WriteOnce(before: Db, after: Db) {
    && (forall n :: n in before.names ==>
          n in after.names && after.names[n].resolvedId == before.names[n].resolvedId
          && after.names[n].createdAt == before.names[n].createdAt)
    && (forall k :: k in before.modules ==>
          k in after.modules
          && after.modules[k].(routeJson := before.modules[k].routeJson) == before.modules[k])
  }

  lemma EmptyRegistryOk()
    ensures RegistryOk(EMPTY_DB) && ModulesAreBound(EMPTY_DB)
  {
    forall scope ensures |ListByScope(EMPTY_DB.dials, scope)| == 0 { ListByScopeIs(EMPTY_DB.dials, scope); }
  }

  // ---- stored texts -----------------------------------------------------------

  lemma CanonicalParses(p: JsonValue, key: string)
    ensures CanonicalDict(p, key).Success? ==> TextOk(CanonicalDict(p, key).value)
    ensures TextOk(CanonicalAny(p, key))
  {
    var v := Field(p, key);
    if v.Some? { ParseOfCanonical(v.value); }
  }

  predicate NameArgsOk(a: NameArgs) { TextOk(a.routeJson) && TextOk(a.metadataJson) }

  lemma ParseRegisterNameOk(p: JsonValue)
    ensures ParseRegisterName(p).Success? ==> NameArgsOk(ParseRegisterName(p).value)
  {
    CanonicalParses(p, "route");
    CanonicalParses(p, "metadata");
    hide CanonicalDict, ValidateResolve, ValidateResolvedId, RequireStr, TextOk;
  }

  lemma ParseOrgOk(p: JsonValue)
    ensures ParseOrg(p).Success? ==> NameArgsOk(ParseOrg(p).value.binding)
  {
    CanonicalParses(p, "route");
    CanonicalParses(p, "metadata");
    hide CanonicalDict, ValidateApex, ValidateResolvedId, RequireStr, OptionalStr, TextOk, Strip;
  }

  // ---- names --------------------------------------------------------------

  /** What any successful binding does to the name table. */
  ghost predicate Bound(names: map<string, NameRow>, names': map<string, NameRow>, a: NameArgs, createdAt: int) {
    && names'.Keys == names.Keys + {a.name}
    && names'[a.name].resolvedId == a.resolvedId && names'[a.name].createdAt == createdAt
    && (a.name in names ==> names[a.name].resolvedId == a.resolvedId && names[a.name].createdAt == createdAt)
    && forall n :: n in names && n != a.name ==> names'[n] == names[n]
  }

  lemma BindNameBinds(names: map<string, NameRow>, a: NameArgs, now: int)
    requires BindName(names, a, now).Success?
    ensures
      var (names', createdAt) := BindName(names, a, now).value;
      Bound(names, names', a, createdAt)
      && (NamesOk(names) && NameArgsOk(a) ==> NamesOk(names'))
  {
    hide TextOk;
  }

  lemma BindOrgBinds(names: map<string, NameRow>, a: OrgArgs, now: int)
    requires BindOrg(names, a, now).Success?
    ensures
      var (names', createdAt) := BindOrg(names, a, now).value;
      Bound(names, names', a.binding, createdAt)
      && (NamesOk(names) && NameArgsOk(a.binding) ==> NamesOk(names'))
  {
    hide TextOk, BindName, Bound, NamesOk, NameArgsOk, BindingMatches;
    if BindName(names, a.binding, now).Success? { BindNameBinds(names, a.binding, now); }
    var b := a.binding;
    if b.name in names && names[b.name].resolvedId == b.resolvedId {
      var row := names[b.name];
      UpgradeBinds(names, b, row.(routeJson := b.routeJson, metadataJson := b.metadataJson));
      UpgradeBinds(names, b, row.(routeJson := b.routeJson, metadataJson := row.metadataJson));
    }
  }

  /** Upgrading a bound name's route and metadata. */
  lemma UpgradeBinds(names: map<string, NameRow>, b: NameArgs, row: NameRow)
    requires b.name in names && names[b.name].resolvedId == b.resolvedId
    requires row == names[b.name].(routeJson := b.routeJson, metadataJson := row.metadataJson)
    requires row.metadataJson == b.metadataJson || row.metadataJson == names[b.name].metadataJson
    ensures Bound(names, names[b.name := row], b, row.createdAt)
    ensures NamesOk(names) && NameArgsOk(b) ==> NamesOk(names[b.name := row])
  {
    hide TextOk;
  }

  lemma NameChangeKeeps(db: Db, names: map<string, NameRow>, a: NameArgs, createdAt: int)
    requires RegistryOk(db) && Bound(db.names, names, a, createdAt) && NamesOk(names)
    ensures
      var db' := db.(names := names);
      RegistryOk(db') && WriteOnce(db, db') && (ModulesAreBound(db) ==> ModulesAreBound(db'))
  {
    hide TableOk, ModulesOk, NamesOk, ModulesAreBound, Bound, WriteOnce;
    NamesStayInSync(db, names);
    if ModulesAreBound(db) { NamesStayBound(db, names, a, createdAt); }
    NamesWrittenOnce(db, names, a, createdAt);
  }

  lemma NamesStayInSync(db: Db, names: map<string, NameRow>)
    requires LegacyInSync(db)
    ensures LegacyInSync(db.(names := names))
  {
    hide ListByScope, RouteJson;
  }

  lemma NamesStayBound(db: Db, names: map<string, NameRow>, a: NameArgs, createdAt: int)
    requires Bound(db.names, names, a, createdAt) && ModulesAreBound(db)
    ensures ModulesAreBound(db.(names := names))
  {
    hide Lower;
    forall k | k in db.modules ensures exists n :: n in names && Lower(n) == k {
      var n :| n in db.names && Lower(n) == k;
      assert n in names;
    }
  }

  lemma NamesWrittenOnce(db: Db, names: map<string, NameRow>, a: NameArgs, createdAt: int)
    requires Bound(db.names, names, a, createdAt)
    ensures WriteOnce(db, db.(names := names))
  {
  }

  /** A name binding is written once: `register_name` changes only the name table, binds the name to the
      requested identity, and leaves every bound name's identity and creation time as they were. */
  lemma RegisterNameKeeps(db: Db, settings: Settings, m: Inbound, now: int)
    requires RegistryOk(db)
    ensures
      var (db', r) := RegisterName(db, settings, m, now);
      && RegistryOk(db') && WriteOnce(db, db') && db'.(names := db.names) == db
      && (ModulesAreBound(db) ==> ModulesAreBound(db'))
      && (r.Failure? ==> db' == db)
  {
    hide ParseRegisterName, BindName, NameReply, RegistryOk, WriteOnce, ModulesAreBound, SenderIsBootstrap, NamesOk, ModulesOk,
         NameArgsOk, Bound;
    ParseRegisterNameOk(m.payload);
    WriteOnceReflexive(db);
    RegistryParts(db);
    var parsed := ParseRegisterName(m.payload);
    if parsed.Success? && BindName(db.names, parsed.value, now).Success? {
      BindNameBinds(db.names, parsed.value, now);
      var (names, createdAt) := BindName(db.names, parsed.value, now).value;
      NameChangeKeeps(db, names, parsed.value, createdAt);
    }
  }

  lemma WriteOnceReflexive(db: Db)
    ensures WriteOnce(db, db)
  {
  }

  lemma WriteOnceTransitive(a: Db, b: Db, c: Db)
    requires WriteOnce(a, b) && WriteOnce(b, c)
    ensures WriteOnce(a, c)
  {
  }

  // ---- organisations and modules --------------------------------------------

  lemma AddModuleAdds(modules: map<string, ModuleRow>, row: ModuleRow)
    requires AddModule(modules, row).Success? && ModulesOk(modules) && ModuleRowOk(row.moduleName, row)
    ensures
      var modules' := AddModule(modules, row).value;
      var key := row.moduleName;
      && ModulesOk(modules') && key in modules' && modules'.Keys == modules.Keys + {key}
      && modules'[key].signingKey == row.signingKey && modules'[key].routeJson == row.routeJson
      && (forall k :: k in modules ==> modules'[k] == modules[k])
  {
    hide Parse, TextOk, Lower;
    var modules' := AddModule(modules, row).value;
    assert Lower(row.moduleName) == row.moduleName;
    assert modules'.Keys == modules.Keys + {row.moduleName};
  }

  lemma PublishAdds(modules: map<string, ModuleRow>, platform: Platform, m: Inbound, a: OrgArgs, now: int)
    requires a.signingKey.Some? && a.binding.routeJson.Some? && NameArgsOk(a.binding)
    requires PublishModule(modules, platform, m, a, now).Success? && ModulesOk(modules)
    ensures
      var modules' := PublishModule(modules, platform, m, a, now).value;
      var key := Lower(a.binding.name);
      && ModulesOk(modules') && key in modules' && modules'.Keys == modules.Keys + {key}
      && modules'[key].signingKey == a.signingKey.value
      && modules'[key].routeJson == a.binding.routeJson.value
      && (forall k :: k in modules ==> modules'[k] == modules[k])
  {
    LowerIdempotent(a.binding.name);
    ParseModuleOk(m.payload);
    var f := ParseModule(m.payload);
    hide ParseModule, IsLowerHex, Lower, AddModule, Parse;
    var row := ModuleRow(Lower(a.binding.name), f.value.version, a.binding.routeJson.value, f.value.capabilitiesJson,
                         f.value.metadataJson, a.signingKey.value, m.senderId, now);
    assert PublishModule(modules, platform, m, a, now) == AddModule(modules, row);
    AddModuleAdds(modules, row);
  }

  lemma ParseModuleOk(p: JsonValue)
    ensures ParseModule(p).Success? ==> TextOk(ParseModule(p).value.capabilitiesJson) && TextOk(ParseModule(p).value.metadataJson)
  {
    CanonicalParses(p, "module_capabilities");
    CanonicalParses(p, "capabilities");
    CanonicalParses(p, "module_metadata");
    hide CanonicalDict, CanonicalAny, TextOk, Strip;
  }

  /** New modules have no dials yet, so adding a row under a bound name keeps every invariant. */
  lemma AddedModuleKeeps(db: Db, modules: map<string, ModuleRow>, name: string)
    requires RegistryOk(db) && ModulesOk(modules) && modules.Keys == db.modules.Keys + {Lower(name)}
    requires forall k :: k in db.modules ==> modules[k] == db.modules[k]
    ensures
      var db' := db.(modules := modules);
      RegistryOk(db') && WriteOnce(db, db') && (ModulesAreBound(db) && name in db.names ==> ModulesAreBound(db'))
  {
    hide ListByScope, RouteJson, TextOk, TableOk, ModuleRowOk, Lower;
    var db' := db.(modules := modules);
    if ModulesAreBound(db) && name in db.names {
      forall k | k in modules ensures exists n :: n in db.names && Lower(n) == k {
        if k in db.modules { var n :| n in db.names && Lower(n) == k; }
      }
    }
  }

  /** `register_org` changes only names and modules, rebinds neither, keeps core out of the module table, and
      publishes under the lower-case form of a name it bound; also on the path that fails after the first write. */
  lemma RegisterOrgKeeps(db: Db, settings: Settings, platform: Platform, m: Inbound, now: int)
    requires RegistryOk(db)
    ensures
      var (db', r) := RegisterOrg(db, settings, platform, m, now);
      && RegistryOk(db') && WriteOnce(db, db')
      && db'.(names := db.names, modules := db.modules) == db
      && (ModulesAreBound(db) ==> ModulesAreBound(db'))
  {
    hide ParseOrg, BindOrg, OrgReply, PublishModule, RegistryOk, WriteOnce, ModulesAreBound, SenderIsBootstrap, NamesOk, ModulesOk,
         NameArgsOk;
    var parsed := ParseOrg(m.payload);
    WriteOnceReflexive(db);
    RegistryParts(db);
    if parsed.Success? && BindOrg(db.names, parsed.value, now).Success? {
      var a := parsed.value;
      ParseOrgOk(m.payload);
      BindOrgBinds(db.names, a, now);
      var (names, createdAt) := BindOrg(db.names, a, now).value;
      var bound := db.(names := names);
      assert a.binding.name in names;
      NameChangeKeeps(db, names, a.binding, createdAt);
      if a.signingKey.Some? && PublishModule(db.modules, platform, m, a, now).Success? {
        PublishAdds(db.modules, platform, m, a, now);
        var modules := PublishModule(db.modules, platform, m, a, now).value;
        AddedModuleKeeps(bound, modules, a.binding.name);
        WriteOnceTransitive(db, bound, bound.(modules := modules));
      }
    }
  }

  lemma RegistryParts(db: Db)
    requires RegistryOk(db)
    ensures NamesOk(db.names) && ModulesOk(db.modules)
  {
    hide TableOk, LegacyInSync, NamesOk, ModulesOk;
  }

  /** An upgrade that omits `metadata` keeps the stored organisation metadata. */
  lemma OmittedMetadataIsKept(names: map<string, NameRow>, a: OrgArgs, now: int)
    requires a.binding.name in names && !a.metadataGiven && BindOrg(names, a, now).Success?
    requires a.binding.metadataJson.None?
    ensures BindOrg(names, a, now).value.0[a.binding.name].metadataJson == names[a.binding.name].metadataJson
  {
  }

  // ---- routes ---------------------------------------------------------------

  lemma RouteJsonParses(r: DialRow)
    ensures Parse(RouteJson(r)) == Some(Canon(RouteDocument(r.routeType, r.route)))
  {
    ParseOfCanonical(RouteDocument(r.routeType, r.route));
  }

  lemma EmptyObjectParses()
    ensures Parse(CanonicalJsonStr(Obj([]))).Some?
  {
    ParseOfCanonical(Obj([]));
  }

  /** The legacy text a sync writes for a scope. */
  function SyncedText(dials: seq<DialRow>, scope: string): string {
    var rows := ListByScope(dials, scope);
    if |rows| == 0 then CanonicalJsonStr(Obj([])) else RouteJson(rows[0])
  }

  lemma SyncedTextParses(dials: seq<DialRow>, scope: string)
    ensures Parse(SyncedText(dials, scope)).Some?
  {
    var rows := ListByScope(dials, scope);
    if |rows| > 0 { RouteJsonParses(rows[0]); } else { EmptyObjectParses(); }
  }

  lemma SyncedModulesOk(modules: map<string, ModuleRow>, scope: string, text: string)
    requires ModulesOk(modules) && scope in modules && Parse(text).Some?
    ensures ModulesOk(modules[scope := modules[scope].(routeJson := text)])
  {
    hide Parse, TextOk, Lower;
  }

  lemma SyncRestoresLegacy(db: Db, dials: seq<DialRow>, scope: string, now: int)
    requires LegacyInSync(db)
    requires forall s :: s != scope ==> ListByScope(dials, s) == ListByScope(db.dials, s)
    requires scope == CORE_MODULE || scope in db.modules
    ensures LegacyInSync(SyncLegacy(db.(dials := dials), scope, now))
  {
    hide ListByScope, RouteJson, CanonicalJsonStr;
  }

  /** Changing the dials of one scope and then syncing it restores every invariant. */
  lemma SyncRestores(db: Db, dials: seq<DialRow>, scope: string, now: int)
    requires RegistryOk(db) && TableOk(dials)
    requires forall x: DialRow :: x.scope != scope ==> (x in dials <==> x in db.dials)
    requires scope == CORE_MODULE || scope in db.modules
    ensures
      var db' := SyncLegacy(db.(dials := dials), scope, now);
      && RegistryOk(db') && WriteOnce(db, db')
      && db'.(dials := db.dials, modules := db.modules, coreRoute := db.coreRoute) == db
      && db'.modules.Keys == db.modules.Keys
  {
    hide ListByScope, RouteJson, TableOk, CanonicalJsonStr, NamesOk, ModulesOk, LegacyInSync, Parse;
    forall s | s != scope ensures ListByScope(dials, s) == ListByScope(db.dials, s) {
      ListByScopeFrame(dials, db.dials, s);
    }
    SyncRestoresLegacy(db, dials, scope, now);
    SyncedTextParses(dials, scope);
    if scope != CORE_MODULE { SyncedModulesOk(db.modules, scope, SyncedText(dials, scope)); }
    assert SyncLegacy(db.(dials := dials), scope, now).modules.Keys == db.modules.Keys;
  }

  lemma GuardMeansScope(db: Db, settings: Settings, m: Inbound, scope: string, guarded: bool)
    requires RouteGuard(db, settings, m, scope, guarded).Success?
    ensures scope == CORE_MODULE || (scope in db.modules && db.modules[scope].signingKey == m.senderKey)
  {
  }

  /** Each dial statement touches one scope only and keeps the table's constraints. */
  lemma StatementTouchesOneScope(db: Db, scope: string, e: DialEntry, now: int)
    requires RegistryOk(db)
    ensures
      var merged, replaced, deleted := UpsertMerge(db.dials, scope, e, now), ReplaceAll(db.dials, scope, [e], now),
                                       DeleteDial(db.dials, scope, e.routeType, e.route);
      && TableOk(merged) && TableOk(replaced) && TableOk(deleted)
      && (forall x: DialRow :: x.scope != scope ==> (x in merged <==> x in db.dials))
      && (forall x: DialRow :: x.scope != scope ==> (x in replaced <==> x in db.dials))
      && (forall x: DialRow :: x.scope != scope ==> (x in deleted <==> x in db.dials))
  {
    var deleted := DeleteDial(db.dials, scope, e.routeType, e.route);
    assert forall x: DialRow :: x.scope != scope ==> (x in deleted <==> x in db.dials);
    assert TableOk(db.dials);
    hide TableOk, UpsertMerge, ReplaceAll, DeleteDial, Lookup, ListByScope, LegacyInSync, ModulesOk, NamesOk;
    MergeRefinesMapUpdate(db.dials, scope, e, now);
    ReplaceAllSingleton(db.dials, scope, e, now);
    DeleteRefinesMapRemoval(db.dials, scope, e.routeType, e.route);
    forall x: DialRow | x.scope != scope ensures x in UpsertMerge(db.dials, scope, e, now) <==> x in db.dials {
      MergeRows(db.dials, scope, e, now, x);
    }
  }

  /** A submit touches one scope's dials and its legacy route, and keeps the two in step. */
  lemma SubmitRouteKeeps(db: Db, settings: Settings, m: Inbound, now: int)
    requires RegistryOk(db)
    ensures
      var (db', r) := SubmitRoute(db, settings, m, now);
      && RegistryOk(db') && WriteOnce(db, db')
      && db'.(dials := db.dials, modules := db.modules, coreRoute := db.coreRoute) == db
      && db'.modules.Keys == db.modules.Keys
      && (r.Failure? ==> db' == db)
  {
    hide ParseSubmit, RouteGuard, SubmitReply, UpsertMerge, ReplaceAll, DeleteDial, RegistryOk, WriteOnce, SyncLegacy, TableOk;
    WriteOnceReflexive(db);
    var parsed := ParseSubmit(m.payload);
    if parsed.Success? && RouteGuard(db, settings, m, parsed.value.route.moduleId, parsed.value.mode.Merge?).Success? {
      var a := parsed.value;
      var scope := a.route.moduleId;
      GuardMeansScope(db, settings, m, scope, a.mode.Merge?);
      StatementTouchesOneScope(db, scope, a.entry, now);
      SyncRestores(db, if a.mode.Merge? then UpsertMerge(db.dials, scope, a.entry, now)
                       else ReplaceAll(db.dials, scope, [a.entry], now), scope, now);
    }
  }

  /** A remove touches one scope's dials and its legacy route, and keeps the two in step. */
  lemma RemoveRouteKeeps(db: Db, settings: Settings, m: Inbound, now: int)
    requires RegistryOk(db)
    ensures
      var (db', r) := RemoveRoute(db, settings, m, now);
      && RegistryOk(db') && WriteOnce(db, db')
      && db'.(dials := db.dials, modules := db.modules, coreRoute := db.coreRoute) == db
      && db'.modules.Keys == db.modules.Keys
      && (r.Failure? ==> db' == db)
  {
    hide ParseRoute, RouteGuard, RemoveReply, UpsertMerge, ReplaceAll, DeleteDial, RegistryOk, WriteOnce, SyncLegacy, TableOk;
    WriteOnceReflexive(db);
    var parsed := ParseRoute(m.payload);
    if parsed.Success? && RouteGuard(db, settings, m, parsed.value.moduleId, true).Success? {
      var a := parsed.value;
      GuardMeansScope(db, settings, m, a.moduleId, true);
      StatementTouchesOneScope(db, a.moduleId, DialEntry(a.routeType, a.route, 0, None), now);
      SyncRestores(db, DeleteDial(db.dials, a.moduleId, a.routeType, a.route), a.moduleId, now);
    }
  }

  // ---- reads agree ------------------------------------------------------------

  /** The route `get_module_route` and `lookup_module` must report, read from the dials or the legacy column. */
  function ReportedRoute(db: Db, id: string): Option<JsonValue> {
    var dials := ListByScope(db.dials, id);
    if |dials| > 0 then Some(RouteDocument(dials[0].routeType, dials[0].route))
    else if id == CORE_MODULE then Some(CoreRouteDocument(db))
    else if id in db.modules then Load(db.modules[id].routeJson)
    else None
  }

  /** The text stored in the redundant single-route column or row of a module. */
  function LegacyText(db: Db, id: string): Option<string> {
    if id == CORE_MODULE then (if db.coreRoute.Some? then Some(db.coreRoute.value.routeJson) else None)
    else if id in db.modules then Some(db.modules[id].routeJson)
    else None
  }

  lemma GetModuleRouteReports(db: Db, m: Inbound, id: string)
    requires RegistryOk(db) && ParseModuleName(m.payload, "module_id") == Success(id)
    requires id == CORE_MODULE || id in db.modules
    ensures
      var r := GetModuleRoute(db, m);
      r.Success? && Field(r.value.payload, "route_detail") == ReportedRoute(db, id)
  {
    hide ListByScope, ParseModuleName, RouteDocument, DialWires, CoreRouteDocument, Dict, Find, Parse, TableOk, LegacyInSync, TextOk,
         WellFormed, NamesOk;
    var dials := ListByScope(db.dials, id);
    var doc := ReportedRoute(db, id).value;
    var head := [Pair("module_id", JStr(if id == CORE_MODULE then id else db.modules[id].moduleName)),
                 Pair("route_detail", doc)];
    var rt, ro := Field(doc, "route_type"), Field(doc, "route");
    var flat := if rt.Some? && ro.Some? && rt.value.Str? && ro.value.Str?
                then [Pair("route_type", rt.value), Pair("route", ro.value)] else [];
    var pairs := head + flat + [Pair("routes", ArrayOf(DialWires(dials)))];
    assert GetModuleRoute(db, m) == Success(Reply("MODULE_ROUTE_RETURNED", ObjectOf(pairs)));
    hide GetModuleRoute;
    assert pairs[1] == Pair("route_detail", doc);
    FindDict(pairs, 1);
  }

  lemma LookupModuleReports(db: Db, m: Inbound, id: string, version: string, now: int)
    requires RegistryOk(db) && ParseModuleName(m.payload, "module_name") == Success(id)
    requires id == CORE_MODULE || id in db.modules
    ensures
      var r := LookupModule(db, m, version, now);
      && r.Success? && Field(r.value.payload, "route") == ReportedRoute(db, id)
      && (id != CORE_MODULE ==>
            Field(r.value.payload, "module_name") == Some(JStr(id))
            && Field(r.value.payload, "signing_public_key") == Some(JStr(db.modules[id].signingKey)))
  {
    hide ListByScope, ParseModuleName, RouteDocument, CoreRouteDocument, Parse, TableOk, LegacyInSync, LookupPairs, ObjectOf, BuiltinMetadata;
    var dials := ListByScope(db.dials, id);
    var route := ReportedRoute(db, id).value;
    if id == CORE_MODULE {
      LookupPairsFind(id, version, route, dials, Null, BuiltinMetadata(), BUILTIN_CORE_KEY, "modulr:network:core", now);
    } else {
      var row := db.modules[id];
      LookupPairsFind(row.moduleName, row.version, route, dials, ValueOrNull(row.capabilitiesJson).value,
                      ValueOrNull(row.metadataJson).value, row.signingKey, row.registeredBy, row.registeredAt);
    }
  }

  /** The reply's keys all differ in length. */
  lemma LookupKeys(
    name: string, version: string, route: JsonValue, dials: seq<DialRow>, capabilities: JsonValue, metadata: JsonValue,
    signingKey: string, registeredBy: string, registeredAt: int)
    ensures
      var pairs := LookupPairs(name, version, route, dials, capabilities, metadata, signingKey, registeredBy, registeredAt);
      && |pairs| == 9
      && (forall j | 0 < j < 9 :: pairs[j].key != pairs[0].key)
      && (forall j | 2 < j < 9 :: pairs[j].key != pairs[2].key)
      && (forall j | 6 < j < 9 :: pairs[j].key != pairs[6].key)
      && pairs[0] == Pair("module_name", JStr(name)) && pairs[2] == Pair("route", route)
      && pairs[6] == Pair("signing_public_key", JStr(signingKey))
  {
    hide DialWires, WellFormed;
    var pairs := LookupPairs(name, version, route, dials, capabilities, metadata, signingKey, registeredBy, registeredAt);
    assert forall i | 0 <= i < 9 :: |pairs[i].key| == [11, 14, 5, 6, 12, 8, 18, 23, 13][i];
  }

  lemma PairFound(pairs: seq<JsonMember>, i: nat)
    requires i < |pairs| && forall j | i < j < |pairs| :: pairs[j].key != pairs[i].key
    ensures Field(ObjectOf(pairs), pairs[i].key) == Some(pairs[i].value)
  {
    hide Dict, Find;
    FindDict(pairs, i);
  }

  lemma LookupPairsFind(
    name: string, version: string, route: JsonValue, dials: seq<DialRow>, capabilities: JsonValue, metadata: JsonValue,
    signingKey: string, registeredBy: string, registeredAt: int)
    ensures
      var reply := ObjectOf(LookupPairs(name, version, route, dials, capabilities, metadata, signingKey, registeredBy, registeredAt));
      && Field(reply, "route") == Some(route) && Field(reply, "module_name") == Some(JStr(name))
      && Field(reply, "signing_public_key") == Some(JStr(signingKey))
  {
    hide ObjectOf, Field, LookupPairs;
    LookupKeys(name, version, route, dials, capabilities, metadata, signingKey, registeredBy, registeredAt);
    var pairs := LookupPairs(name, version, route, dials, capabilities, metadata, signingKey, registeredBy, registeredAt);
    PairFound(pairs, 0);
    PairFound(pairs, 2);
    PairFound(pairs, 6);
  }

  /** In every state the invariants hold in, both reads succeed for the same modules and report the same route;
      with dials it is the first dial's, and the stored legacy text says the same route. */
  lemma RouteReadsAgree(db: Db, get: Inbound, lookup: Inbound, id: string, version: string, now: int)
    requires RegistryOk(db)
    requires ParseModuleName(get.payload, "module_id") == Success(id)
    requires ParseModuleName(lookup.payload, "module_name") == Success(id)
    ensures
      var g, l := GetModuleRoute(db, get), LookupModule(db, lookup, version, now);
      var dials := ListByScope(db.dials, id);
      && (g.Success? <==> id == CORE_MODULE || id in db.modules)
      && (l.Success? <==> id == CORE_MODULE || id in db.modules)
      && (g.Success? ==>
            var route := Field(g.value.payload, "route_detail");
            && route.Some? && route == Field(l.value.payload, "route")
            && (|dials| > 0 ==>
                  && route == Some(RouteDocument(dials[0].routeType, dials[0].route))
                  && LegacyText(db, id).Some? && Load(LegacyText(db, id).value).Some?
                  && SameValue(route.value, Load(LegacyText(db, id).value).value)))
  {
    if id == CORE_MODULE || id in db.modules {
      GetModuleRouteReports(db, get, id);
      LookupModuleReports(db, lookup, id, version, now);
      hide GetModuleRoute, LookupModule, ListByScope, RouteDocument, Field, Parse, RouteJson, SameValue, Canon, TableOk, ModulesOk, NamesOk;
      var dials := ListByScope(db.dials, id);
      if |dials| > 0 {
        RouteJsonParses(dials[0]);
        LegacySame(RouteDocument(dials[0].routeType, dials[0].route));
      }
    } else {
      hide ParseModuleName, ListByScope;
    }
  }

  lemma LegacySame(doc: JsonValue)
    ensures SameValue(doc, Canon(doc))
  {
    CanonWellFormed(doc);
    CanonIdempotent(doc);
    SameCanonMeansSameValue(doc, Canon(doc));
  }

  // ---- names read back ----------------------------------------------------------

  /** A name once bound resolves to the same identity in every later state. */
  lemma BoundNameResolves(db: Db, later: Db, m: Inbound, name: string)
    requires RegistryOk(later) && WriteOnce(db, later) && name in db.names
    requires RequireStr(m.payload, "name").Success?
    requires ValidateResolve(RequireStr(m.payload, "name").value) == Success(name)
    ensures
      var r := ResolveName(later, m);
      && r.Success? && Field(r.value.payload, "resolved_id") == Some(JStr(db.names[name].resolvedId))
      && Field(r.value.payload, "created_at") == Some(JInt(db.names[name].createdAt))
  {
    hide RequireStr, ValidateResolve, Dict, Find, Parse, LegacyInSync, ModulesOk, TableOk;
    var row := later.names[name];
    var pairs := [
      Pair("name", JStr(name)), Pair("resolved_id", JStr(row.resolvedId)), Pair("route", ValueOrNull(row.routeJson).value),
      Pair("metadata", ValueOrNull(row.metadataJson).value), Pair("created_at", JInt(row.createdAt))];
    assert NameEntry(name, row) == Some(ObjectOf(pairs));
    assert ResolveName(later, m) == Success(Reply("NAME_RESOLVED", ObjectOf(pairs)));
    hide NameEntry, ResolveName;
    FindDict(pairs, 1);
    FindDict(pairs, 4);
  }

  /** Registering then resolving: whatever name text `register_org` accepted is accepted by `resolve_name` and
      yields the registered identity, now and in every later state without a reset. */
  lemma RegisteredOrgResolves(
    db: Db, settings: Settings, platform: Platform, m: Inbound, now: int, later: Db, q: Inbound)
    requires RegistryOk(db) && RegisterOrg(db, settings, platform, m, now).1.Success?
    requires RegistryOk(later) && WriteOnce(RegisterOrg(db, settings, platform, m, now).0, later)
    requires Field(q.payload, "name") == Field(m.payload, "organization_name")
    ensures
      var a := ParseOrg(m.payload);
      var r := ResolveName(later, q);
      && a.Success? && r.Success?
      && Field(r.value.payload, "resolved_id") == Some(JStr(a.value.binding.resolvedId))
  {
    hide *;
    RegisterOrgBinds(db, settings, platform, m, now);
    var a := ParseOrg(m.payload).value;
    SameNameParses(m.payload, q.payload);
    BoundNameResolves(RegisterOrg(db, settings, platform, m, now).0, later, q, a.binding.name);
  }

  lemma RegisterOrgBinds(db: Db, settings: Settings, platform: Platform, m: Inbound, now: int)
    requires RegisterOrg(db, settings, platform, m, now).1.Success?
    ensures
      var db' := RegisterOrg(db, settings, platform, m, now).0;
      var a := ParseOrg(m.payload);
      a.Success? && a.value.binding.name in db'.names && db'.names[a.value.binding.name].resolvedId == a.value.binding.resolvedId
  {
    hide ParseOrg, BindOrg, PublishModule, OrgReply, SenderIsBootstrap;
    BindOrgBinds(db.names, ParseOrg(m.payload).value, now);
  }

  lemma SameNameParses(p: JsonValue, q: JsonValue)
    requires ParseOrg(p).Success? && Field(q, "name") == Field(p, "organization_name")
    ensures RequireStr(q, "name") == RequireStr(p, "organization_name")
    ensures RequireStr(q, "name").Success?
    ensures ValidateResolve(RequireStr(q, "name").value) == Success(ParseOrg(p).value.binding.name)
  {
    hide ParseOrg, ValidateApex, ValidateResolve, Strip, Field;
    OrgNameParsed(p);
    ApexIsResolvable(RequireStr(p, "organization_name").value, InvalidName);
  }

  lemma OrgNameParsed(p: JsonValue)
    requires ParseOrg(p).Success?
    ensures OrgName(p) == Success(ParseOrg(p).value.binding.name)
  {
    hide OrgName, CanonicalDict, ValidateResolvedId, OptionalStr, RequireStr, Strip, ValidateApex;
  }

  lemma RegisterOrgPublishes(db: Db, settings: Settings, platform: Platform, m: Inbound, now: int)
    requires RegistryOk(db) && RegisterOrg(db, settings, platform, m, now).1.Success?
    requires ParseOrg(m.payload).Success? && ParseOrg(m.payload).value.signingKey.Some?
    ensures
      var db' := RegisterOrg(db, settings, platform, m, now).0;
      var a := ParseOrg(m.payload).value;
      var key := Lower(a.binding.name);
      key in db'.modules && db'.modules[key].signingKey == a.signingKey.value
  {
    hide ParseOrg, BindOrg, PublishModule, OrgReply, SenderIsBootstrap, LegacyInSync, TableOk, NamesOk, ModulesOk, NameArgsOk;
    ParseOrgOk(m.payload);
    PublishAdds(db.modules, platform, m, ParseOrg(m.payload).value, now);
  }

  /** Reverse resolution lists exactly the names bound to the identity, each once, in code point order. */
  lemma NamesOfLists(names: map<string, NameRow>, resolvedId: string)
    ensures
      var listed := NamesOf(names, resolvedId);
      && (forall n :: n in listed <==> n in names && names[n].resolvedId == resolvedId)
      && (forall i, j | 0 <= i < j < |listed| :: Less(listed[i], listed[j]))
      && (|listed| > 0 <==> exists n :: n in names && names[n].resolvedId == resolvedId)
  {
    hide Less;
    var listed := NamesOf(names, resolvedId);
    assert |listed| > 0 ==> listed[0] in listed;
  }

  lemma StoredEntries(names: map<string, NameRow>, listed: seq<string>)
    requires NamesOk(names) && forall n | n in listed :: n in names
    ensures NameEntries(names, listed).Some?
  {
    forall n | n in names ensures NameEntry(n, names[n]).Some? {
      hide Parse, ObjectOf;
    }
    hide NameEntry;
    EntriesExist(names, listed);
  }

  /** The reply carries one entry for each listed name, in that order; it fails exactly when no name is bound to the id. */
  lemma ReverseResolveListsAll(db: Db, m: Inbound, resolvedId: string)
    requires RegistryOk(db)
    requires RequireStr(m.payload, "resolved_id").Success?
    requires ValidateResolvedId(RequireStr(m.payload, "resolved_id").value) == Success(resolvedId)
    ensures
      var r := ReverseResolve(db, m);
      var listed := NamesOf(db.names, resolvedId);
      && (forall n :: n in listed <==> n in db.names && db.names[n].resolvedId == resolvedId)
      && (forall i, j | 0 <= i < j < |listed| :: Less(listed[i], listed[j]))
      && (r.Success? <==> exists n :: n in db.names && db.names[n].resolvedId == resolvedId)
      && (r.Success? ==>
            && NameEntries(db.names, listed).Some?
            && Field(r.value.payload, "names") == Some(ArrayOf(NameEntries(db.names, listed).value)))
  {
    hide NamesOf, NameEntries, NameEntry, Dict, Find, RequireStr, ValidateResolvedId, TableOk, LegacyInSync, ModulesOk, NamesOk, Less;
    var listed := NamesOf(db.names, resolvedId);
    NamesOfLists(db.names, resolvedId);
    StoredEntries(db.names, listed);
    if |listed| > 0 {
      var entries := NameEntries(db.names, listed).value;
      var pairs := [Pair("resolved_id", JStr(resolvedId)), Pair("names", ArrayOf(entries))];
      assert ReverseResolve(db, m) == Success(Reply("NAME_REVERSE_RESOLVED", ObjectOf(pairs)));
      FindDict(pairs, 1);
    }
  }

  lemma {:induction false} EntriesExist(names: map<string, NameRow>, listed: seq<string>)
    requires forall n | n in listed :: n in names && NameEntry(n, names[n]).Some?
    ensures NameEntries(names, listed).Some?
  {
    hide NameEntry;
    if |listed| > 0 { EntriesExist(names, listed[1..]); }
  }

  /** A published module is found under every letter case of its name, with the key it was published with. */
  lemma LookupIgnoresCase(
    db: Db, settings: Settings, platform: Platform, m: Inbound, now: int,
    later: Db, q: Inbound, version: string, at: int)
    requires RegistryOk(db) && RegisterOrg(db, settings, platform, m, now).1.Success?
    requires ParseOrg(m.payload).Success? && ParseOrg(m.payload).value.signingKey.Some?
    requires RegistryOk(later) && WriteOnce(RegisterOrg(db, settings, platform, m, now).0, later)
    requires RequireStr(q.payload, "module_name").Success?
    requires Lower(RequireStr(q.payload, "module_name").value) == Lower(ParseOrg(m.payload).value.binding.name)
    ensures
      var key := Lower(ParseOrg(m.payload).value.binding.name);
      var r := LookupModule(later, q, version, at);
      && r.Success? && Field(r.value.payload, "module_name") == Some(JStr(key))
      && Field(r.value.payload, "signing_public_key") == Some(JStr(ParseOrg(m.payload).value.signingKey.value))
  {
    var a := ParseOrg(m.payload).value;
    hide *;
    RegisterOrgPublishes(db, settings, platform, m, now);
    OrgNameParsed(m.payload);
    ApexKey(a.binding.name, RequireStr(q.payload, "module_name").value);
    ModuleNameParses(q.payload, "module_name", RequireStr(q.payload, "module_name").value);
    LaterModule(RegisterOrg(db, settings, platform, m, now).0, later, Lower(a.binding.name));
    NotCore(later, Lower(a.binding.name));
    LookupModuleReports(later, q, Lower(a.binding.name), version, at);
  }

  lemma NotCore(db: Db, key: string)
    requires RegistryOk(db) && key in db.modules
    ensures key != CORE_MODULE
  {
    hide Parse, TextOk, Lower;
  }

  lemma ApexKey(name: string, raw: string)
    requires ValidateApex(name, InvalidName) == Success(name)
    requires Trimmed(raw, IsPySpace) && Lower(raw) == Lower(name)
    ensures ValidateApex(raw, InvalidModuleName) == Success(raw)
  {
    TrimIsTrimmed(name, IsPySpace);
    LowerApex(name, InvalidName);
    LowerApex(raw, InvalidModuleName);
    hide IsLabel, IsTwoLabels, CountDots, Trim;
  }

  lemma ModuleNameParses(p: JsonValue, field: string, raw: string)
    ensures
      RequireStr(p, field) == Success(raw) && ValidateApex(raw, InvalidModuleName) == Success(raw)
      ==> ParseModuleName(p, field) == Success(Lower(raw))
  {
    hide RequireStr, ValidateApex, Lower;
  }

  lemma LaterModule(db: Db, later: Db, key: string)
    requires WriteOnce(db, later) && key in db.modules
    ensures key in later.modules && later.modules[key].signingKey == db.modules[key].signingKey
  {
  }
}
