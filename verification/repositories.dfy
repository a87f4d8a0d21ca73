// The statements of the table repositories, on the connection's working copy.
module Repositories {
  import opened Wrappers
  import opened Text
  import opened Dials
  import opened Database

  // ---- name_bindings ----------------------------------------------------------

  /** False stands for `IntegrityError`: the name is taken and nothing changes. */
  method InsertName(conn: Connection, name: string, row: NameRow) returns (ok: bool)
    modifies conn`working
    ensures ok <==> name !in old(conn.working).names
    ensures conn.working == if ok then old(conn.working).(names := old(conn.working).names[name := row]) else old(conn.working)
  {
    ok := name !in conn.working.names;
    if ok { conn.working := conn.working.(names := conn.working.names[name := row]); }
  }

  method UpdateRouteMetadata(
    conn: Connection, name: string, resolvedId: string, routeJson: Option<string>, metadataJson: Option<string>)
    returns (updated: bool)
    modifies conn`working
    ensures updated <==> name in old(conn.working).names && old(conn.working).names[name].resolvedId == resolvedId
    ensures conn.working ==
            if updated then
              var row := old(conn.working).names[name];
              old(conn.working).(names := old(conn.working).names[name := row.(routeJson := routeJson, metadataJson := metadataJson)])
            else old(conn.working)
  {
    updated := name in conn.working.names && conn.working.names[name].resolvedId == resolvedId;
    if updated {
      var row := conn.working.names[name].(routeJson := routeJson, metadataJson := metadataJson);
      conn.working := conn.working.(names := conn.working.names[name := row]);
    }
  }

  method DeleteName(conn: Connection, name: string) returns (removed: bool)
    modifies conn`working
    ensures removed <==> name in old(conn.working).names
    ensures conn.working == old(conn.working).(names := old(conn.working).names - {name})
  {
    removed := name in conn.working.names;
    conn.working := conn.working.(names := conn.working.names - {name});
  }

  // ---- modules ------------------------------------------------------------------

  method InsertModule(conn: Connection, row: ModuleRow) returns (ok: bool)
    modifies conn`working
    ensures ok <==> Lower(row.moduleName) !in old(conn.working).modules
    ensures conn.working ==
            if ok then old(conn.working).(modules := old(conn.working).modules[Lower(row.moduleName) := row])
            else old(conn.working)
  {
    ok := Lower(row.moduleName) !in conn.working.modules;
    if ok { conn.working := conn.working.(modules := conn.working.modules[Lower(row.moduleName) := row]); }
  }

  method UpdateRouteJson(conn: Connection, key: string, text: string)
    modifies conn`working
    ensures conn.working ==
            if key in old(conn.working).modules then
              old(conn.working).(modules := old(conn.working).modules[key := old(conn.working).modules[key].(routeJson := text)])
            else old(conn.working)
  {
    if key in conn.working.modules {
      conn.working := conn.working.(modules := conn.working.modules[key := conn.working.modules[key].(routeJson := text)]);
    }
  }

  // ---- core_advertised_route ------------------------------------------------------

  method UpsertCoreRoute(conn: Connection, text: string, now: int)
    modifies conn`working
    ensures conn.working == old(conn.working).(coreRoute := Some(CoreRoute(text, now)))
  {
    conn.working := conn.working.(coreRoute := Some(CoreRoute(text, now)));
  }

  method DeleteCoreRoute(conn: Connection)
    modifies conn`working
    ensures conn.working == old(conn.working).(coreRoute := None)
  {
    conn.working := conn.working.(coreRoute := None);
  }

  // ---- dial_route_entry ---------------------------------------------------------

  method UpsertMergeDial(conn: Connection, scope: string, e: DialEntry, now: int)
    modifies conn`working
    ensures conn.working == old(conn.working).(dials := UpsertMerge(old(conn.working).dials, scope, e, now))
  {
    var t := conn.working.dials;
    var i := 0;
    while i < |t| && !HasKey(t[i], scope, e.routeType, e.route)
      invariant i <= |t| && forall j | 0 <= j < i :: !HasKey(t[j], scope, e.routeType, e.route)
    {
      i := i + 1;
    }
    KeyIndexUnique(t, scope, e.routeType, e.route, i);
    if i < |t| {
      t := t[i := t[i].(priority := e.priority, endpointKey := e.endpointKey, updatedAt := now)];
    } else {
      t := t + [NewRow(t, scope, e, now)];
    }
    conn.working := conn.working.(dials := t);
  }

  method DeleteAllForScope(conn: Connection, scope: string)
    modifies conn`working
    ensures conn.working == old(conn.working).(dials := DeleteScope(old(conn.working).dials, scope))
  {
    conn.working := conn.working.(dials := DeleteScope(conn.working.dials, scope));
  }

  /** Delete every dial of the scope, then insert the entries one by one. */
  method ReplaceAllForScope(conn: Connection, scope: string, entries: seq<DialEntry>, now: int)
    modifies conn`working
    ensures conn.working == old(conn.working).(dials := ReplaceAll(old(conn.working).dials, scope, entries, now))
  {
    ghost var before := conn.working;
    DeleteAllForScope(conn, scope);
    ghost var kept := conn.working.dials;
    for i := 0 to |entries|
      invariant conn.working == before.(dials := InsertAll(kept, scope, entries[..i], now))
    {
      assert entries[..i + 1][..i] == entries[..i];
      var row := NewRow(conn.working.dials, scope, entries[i], now);
      conn.working := conn.working.(dials := conn.working.dials + [row]);
    }
    assert entries[..|entries|] == entries;
  }

  /** True when a row was deleted. */
  method DeleteByScopeAndDial(conn: Connection, scope: string, routeType: string, route: string) returns (deleted: bool)
    modifies conn`working
    ensures conn.working == old(conn.working).(dials := DeleteDial(old(conn.working).dials, scope, routeType, route))
    ensures deleted <==> |conn.working.dials| != |old(conn.working).dials|
  {
    var t := DeleteDial(conn.working.dials, scope, routeType, route);
    deleted := |t| != |conn.working.dials|;
    conn.working := conn.working.(dials := t);
  }
}
