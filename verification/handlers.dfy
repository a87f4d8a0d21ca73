// The state-changing registry handlers, step by step on the working copy. Each is
// proved to compute the function of `Registry` of the same name.
module Handlers {
  import opened Wrappers
  import opened Errors
  import opened Text
  import opened Json
  import opened Canonical
  import opened Dials
  import opened Database
  import opened Registry
  import opened Repositories

  method InsertNameIdempotent(conn: Connection, a: NameArgs, now: int) returns (r: Result<int, ErrorCode>)
    modifies conn`working
    ensures
      match BindName(old(conn.working).names, a, now)
      case Failure(e) => r == Failure(e) && conn.working == old(conn.working)
      case Success((names, createdAt)) => r == Success(createdAt) && conn.working == old(conn.working).(names := names)
  {
    if a.name in conn.working.names {
      var row := conn.working.names[a.name];
      return if BindingMatches(row, a) then Success(row.createdAt) else Failure(NameAlreadyBound);
    }
    var ok := InsertName(conn, a.name, NameRow(a.resolvedId, a.routeJson, a.metadataJson, now));
    return Success(now);
  }

  method HandleRegisterName(conn: Connection, settings: Settings, m: Inbound, now: int) returns (r: Outcome)
    modifies conn`working
    ensures (conn.working, r) == RegisterName(old(conn.working), settings, m, now)
  {
    hide ParseRegisterName, BindName, NameReply, SenderIsBootstrap;
    if !SenderIsBootstrap(settings, conn.working.genesis, m.senderKey) { return Failure(Unauthorized); }
    var a :- ParseRegisterName(m.payload);
    var createdAt :- InsertNameIdempotent(conn, a, now);
    return Success(NameReply(a, createdAt));
  }

  /** The three-way choice on an organisation name: accept, refresh, or bind. */
  method BindOrganization(conn: Connection, a: OrgArgs, now: int) returns (r: Result<int, ErrorCode>)
    modifies conn`working
    ensures
      match BindOrg(old(conn.working).names, a, now)
      case Failure(e) => r == Failure(e) && conn.working == old(conn.working)
      case Success((names, createdAt)) => r == Success(createdAt) && conn.working == old(conn.working).(names := names)
  {
    var b := a.binding;
    if b.name in conn.working.names {
      var row := conn.working.names[b.name];
      if BindingMatches(row, b) {
        return Success(row.createdAt);
      } else if a.signingKey.Some? && row.resolvedId == b.resolvedId {
        var metadata := if a.metadataGiven then b.metadataJson else row.metadataJson;
        var updated := UpdateRouteMetadata(conn, b.name, b.resolvedId, b.routeJson, metadata);
        return Success(row.createdAt);
      } else {
        return Failure(NameAlreadyBound);
      }
    }
    r := InsertNameIdempotent(conn, b, now);
  }

  method UpsertModuleRow(conn: Connection, row: ModuleRow) returns (r: Result<(), ErrorCode>)
    modifies conn`working
    ensures
      match AddModule(old(conn.working).modules, row)
      case Failure(e) => r == Failure(e) && conn.working == old(conn.working)
      case Success(modules) => r == Success(()) && conn.working == old(conn.working).(modules := modules)
  {
    var inserted := InsertModule(conn, row);
    if !inserted && !ModuleMatches(conn.working.modules[Lower(row.moduleName)], row) {
      return Failure(ModuleAlreadyRegistered);
    }
    return Success(());
  }

  method PublishOrgModule(conn: Connection, platform: Platform, m: Inbound, a: OrgArgs, now: int)
    returns (r: Result<(), ErrorCode>)
    requires a.signingKey.Some? && a.binding.routeJson.Some?
    modifies conn`working
    ensures
      match PublishModule(old(conn.working).modules, platform, m, a, now)
      case Failure(e) => r == Failure(e) && conn.working == old(conn.working)
      case Success(modules) => r == Success(()) && conn.working == old(conn.working).(modules := modules)
  {
    hide ParseModule, AddModule, IsLowerHex, Lower;
    var name := Lower(a.binding.name);
    if name == CORE_MODULE { return Failure(ModuleNameReserved); }
    var f :- ParseModule(m.payload);
    var key := a.signingKey.value;
    if !IsLowerHex(key, 64) || !platform.validKey(key) { return Failure(PublicKeyInvalid); }
    r := UpsertModuleRow(conn, ModuleRow(name, f.version, a.binding.routeJson.value, f.capabilitiesJson, f.metadataJson,
                                         key, m.senderId, now));
  }

  /** Writes the name binding first; a later failure leaves it in the working copy. */
  method HandleRegisterOrg(conn: Connection, settings: Settings, platform: Platform, m: Inbound, now: int)
    returns (r: Outcome)
    modifies conn`working
    ensures (conn.working, r) == RegisterOrg(old(conn.working), settings, platform, m, now)
  {
    hide ParseOrg, BindOrg, PublishModule, OrgReply, SenderIsBootstrap;
    if !SenderIsBootstrap(settings, conn.working.genesis, m.senderKey) { return Failure(Unauthorized); }
    var a :- ParseOrg(m.payload);
    var createdAt :- BindOrganization(conn, a, now);
    if a.signingKey.None? { return Success(OrgReply(a, createdAt, false)); }
    var _ :- PublishOrgModule(conn, platform, m, a, now);
    return Success(OrgReply(a, createdAt, true));
  }

  method SyncLegacyRouteToPrimaryDial(conn: Connection, scope: string, now: int)
    modifies conn`working
    ensures conn.working == SyncLegacy(old(conn.working), scope, now)
  {
    hide ListByScope, RouteJson, CanonicalJsonStr;
    var rows := ListByScope(conn.working.dials, scope);
    if |rows| == 0 {
      if scope == CORE_MODULE {
        DeleteCoreRoute(conn);
      } else {
        UpdateRouteJson(conn, scope, CanonicalJsonStr(Obj([])));
      }
      return;
    }
    var text := RouteJson(rows[0]);
    if scope == CORE_MODULE {
      UpsertCoreRoute(conn, text, now);
    } else {
      UpdateRouteJson(conn, scope, text);
    }
  }

  method HandleSubmitRoute(conn: Connection, settings: Settings, m: Inbound, now: int) returns (r: Outcome)
    modifies conn`working
    ensures (conn.working, r) == SubmitRoute(old(conn.working), settings, m, now)
  {
    hide ParseSubmit, RouteGuard, SubmitReply, UpsertMerge, ReplaceAll, SyncLegacy;
    var a :- ParseSubmit(m.payload);
    var _ :- RouteGuard(conn.working, settings, m, a.route.moduleId, a.mode.Merge?);
    if !FitsColumn(a.entry.priority) { return Failure(InternalError); }
    if a.mode.Merge? {
      UpsertMergeDial(conn, a.route.moduleId, a.entry, now);
    } else {
      ReplaceAllForScope(conn, a.route.moduleId, [a.entry], now);
    }
    SyncLegacyRouteToPrimaryDial(conn, a.route.moduleId, now);
    return Success(SubmitReply(a));
  }

  method HandleRemoveRoute(conn: Connection, settings: Settings, m: Inbound, now: int) returns (r: Outcome)
    modifies conn`working
    ensures (conn.working, r) == RemoveRoute(old(conn.working), settings, m, now)
  {
    hide ParseRoute, RouteGuard, RemoveReply, DeleteDial, SyncLegacy;
    var a :- ParseRoute(m.payload);
    var _ :- RouteGuard(conn.working, settings, m, a.moduleId, true);
    ghost var before := conn.working;
    var deleted := DeleteByScopeAndDial(conn, a.moduleId, a.routeType, a.route);
    if !deleted {
      NothingDeleted(before.dials, a);
      return Failure(DialNotFound);
    }
    SyncLegacyRouteToPrimaryDial(conn, a.moduleId, now);
    return Success(RemoveReply(a));
  }

  /** A delete that removes no row leaves the table as it was. */
  lemma NothingDeleted(t: seq<DialRow>, a: RouteArgs)
    requires |DeleteDial(t, a.moduleId, a.routeType, a.route)| == |t|
    ensures DeleteDial(t, a.moduleId, a.routeType, a.route) == t
  {
    var keep := NotDial(a.moduleId, a.routeType, a.route);
    KeepLength(t, keep);
    KeepAll(t, keep);
  }
}
