// End-to-end effects that span several operations: what a later read or step makes of an earlier write.
module Effects {
  import opened Wrappers
  import opened Errors
  import opened Text
  import opened Json
  import opened Canonical
  import opened Names
  import opened Dials
  import opened Database
  import Handlers
  import opened Registry
  import opened RegistryLaws
  import opened ModuleState
  import opened ChallengeText
  import opened Core

  // ---- routes -----------------------------------------------------------------------

  /** The row a submit leaves for its route. */
  predicate IsSubmitted(row: DialRow, a: SubmitArgs, now: int) {
    HasKey(row, a.route.moduleId, a.route.routeType, a.route.route)
    && row.priority == a.entry.priority && row.endpointKey == a.entry.endpointKey && row.updatedAt == now
  }

  lemma SubmitDials(db: Db, settings: Settings, m: Inbound, now: int)
    requires SubmitRoute(db, settings, m, now).1.Success?
    ensures ParseSubmit(m.payload).Success?
    ensures
      var a := ParseSubmit(m.payload).value;
      && RouteGuard(db, settings, m, a.route.moduleId, a.mode.Merge?).Success?
      && SubmitRoute(db, settings, m, now).0.dials
         == (if a.mode.Merge? then UpsertMerge(db.dials, a.route.moduleId, a.entry, now)
             else ReplaceAll(db.dials, a.route.moduleId, [a.entry], now))
  {
    hide ParseSubmit, RouteGuard, SubmitReply, UpsertMerge, ReplaceAll, ListByScope, RouteJson, CanonicalJsonStr;
  }

  lemma SubmitEntry(p: JsonValue)
    requires ParseSubmit(p).Success?
    ensures
      var a := ParseSubmit(p).value;
      a.entry.routeType == a.route.routeType && a.entry.route == a.route.route
  {
    hide ParseRoute, ParseMode, OptionalInt, OptionalKeyHex;
  }

  /** An accepted submit is what the table then holds for that route: merging keeps every other route of every scope,
      replacing leaves it as the scope's only route and keeps every other scope. */
  lemma SubmittedRouteIsStored(db: Db, settings: Settings, m: Inbound, now: int)
    requires RegistryOk(db) && SubmitRoute(db, settings, m, now).1.Success?
    ensures
      var a := ParseSubmit(m.payload);
      var db' := SubmitRoute(db, settings, m, now).0;
      a.Success? &&
      var scope, row := a.value.route.moduleId, Lookup(db'.dials, a.value.route.moduleId, a.value.route.routeType, a.value.route.route);
      if a.value.mode.Merge? then
        && row.Some? && IsSubmitted(row.value, a.value, now)
        && forall s, rt, ro :: !(s == scope && rt == a.value.route.routeType && ro == a.value.route.route) ==>
             Lookup(db'.dials, s, rt, ro) == Lookup(db.dials, s, rt, ro)
      else
        && (exists only :: ListByScope(db'.dials, scope) == [only] && IsSubmitted(only, a.value, now))
        && forall x: DialRow :: x.scope != scope ==> (x in db'.dials <==> x in db.dials)
  {
    hide SubmitRoute, ParseSubmit, RouteGuard, UpsertMerge, ReplaceAll, Lookup, ListByScope, LegacyInSync, ModulesOk, NamesOk, TableOk;
    SubmitDials(db, settings, m, now);
    SubmitEntry(m.payload);
    var a := ParseSubmit(m.payload).value;
    if a.mode.Merge? {
      MergeRefinesMapUpdate(db.dials, a.route.moduleId, a.entry, now);
    } else {
      ReplaceAllSingleton(db.dials, a.route.moduleId, a.entry, now);
      var only := NewRow(DeleteScope(db.dials, a.route.moduleId), a.route.moduleId, a.entry, now);
      assert IsSubmitted(only, a, now);
    }
  }

  /** After a replacing submit both public reads report the submitted route. */
  lemma ReplacedRouteIsReported(
    db: Db, settings: Settings, m: Inbound, now: int, get: Inbound, lookup: Inbound, version: string, at: int)
    requires RegistryOk(db) && SubmitRoute(db, settings, m, now).1.Success?
    requires ParseSubmit(m.payload).Success? && ParseSubmit(m.payload).value.mode.ReplaceScope?
    requires ParseModuleName(get.payload, "module_id") == Success(ParseSubmit(m.payload).value.route.moduleId)
    requires ParseModuleName(lookup.payload, "module_name") == Success(ParseSubmit(m.payload).value.route.moduleId)
    ensures
      var db' := SubmitRoute(db, settings, m, now).0;
      var r := ParseSubmit(m.payload).value.route;
      var g, l := GetModuleRoute(db', get), LookupModule(db', lookup, version, at);
      && g.Success? && l.Success?
      && Field(g.value.payload, "route_detail") == Some(RouteDocument(r.routeType, r.route))
      && Field(l.value.payload, "route") == Some(RouteDocument(r.routeType, r.route))
  {
    SubmittedScopeExists(db, settings, m, now);
    hide SubmitRoute, ParseSubmit, GetModuleRoute, LookupModule, ListByScope, LegacyInSync, ModulesOk, NamesOk, TableOk, ParseModuleName,
         Lookup, RouteDocument, SameValue, LegacyText;
    SubmitRouteKeeps(db, settings, m, now);
    SubmittedRouteIsStored(db, settings, m, now);
    var a := ParseSubmit(m.payload).value;
    var db' := SubmitRoute(db, settings, m, now).0;
    var only :| ListByScope(db'.dials, a.route.moduleId) == [only] && IsSubmitted(only, a, now);
    RouteReadsAgree(db', get, lookup, a.route.moduleId, version, at);
  }

  lemma SubmittedScopeExists(db: Db, settings: Settings, m: Inbound, now: int)
    requires RegistryOk(db) && SubmitRoute(db, settings, m, now).1.Success?
    ensures ParseSubmit(m.payload).Success?
    ensures
      var scope := ParseSubmit(m.payload).value.route.moduleId;
      scope == CORE_MODULE || scope in SubmitRoute(db, settings, m, now).0.modules
  {
    hide SubmitRoute, ParseSubmit, RouteGuard, RegistryOk, WriteOnce, UpsertMerge, ReplaceAll;
    SubmitDials(db, settings, m, now);
    var a := ParseSubmit(m.payload).value;
    GuardMeansScope(db, settings, m, a.route.moduleId, a.mode.Merge?);
    SubmitRouteKeeps(db, settings, m, now);
  }

  /** Merging a new route and then removing it restores the whole dial table. */
  lemma SubmitThenRemoveRestores(db: Db, settings: Settings, submit: Inbound, remove: Inbound, now: int, later: int)
    requires RegistryOk(db) && SubmitRoute(db, settings, submit, now).1.Success?
    requires ParseSubmit(submit.payload).Success? && ParseSubmit(submit.payload).value.mode.Merge?
    requires
      var r := ParseSubmit(submit.payload).value.route;
      Lookup(db.dials, r.moduleId, r.routeType, r.route).None? && ParseRoute(remove.payload) == Success(r)
    requires remove.senderKey == submit.senderKey
    ensures
      var db1 := SubmitRoute(db, settings, submit, now).0;
      var (db2, r) := RemoveRoute(db1, settings, remove, later);
      r.Success? && db2.dials == db.dials
  {
    var a := ParseSubmit(submit.payload).value;
    var db1 := SubmitRoute(db, settings, submit, now).0;
    hide SubmitRoute, ParseSubmit, RegistryOk, WriteOnce, UpsertMerge, ReplaceAll, Lookup, TableOk, DeleteDial, ParseRoute, SyncLegacy;
    SubmitDials(db, settings, submit, now);
    SubmitEntry(submit.payload);
    SubmitRouteKeeps(db, settings, submit, now);
    GuardStays(db, db1, settings, submit, remove, a.route.moduleId);
    MergeThenDelete(db, a, now);
    RemoveDials(db1, settings, remove, later);
  }

  lemma GuardStays(db: Db, db1: Db, settings: Settings, m: Inbound, n: Inbound, scope: string)
    requires RouteGuard(db, settings, m, scope, true).Success? && n.senderKey == m.senderKey
    requires WriteOnce(db, db1) && db1.genesis == db.genesis
    ensures RouteGuard(db1, settings, n, scope, true).Success?
  {
    hide SenderIsBootstrap;
  }

  lemma MergeThenDelete(db: Db, a: SubmitArgs, now: int)
    requires RegistryOk(db) && Lookup(db.dials, a.route.moduleId, a.route.routeType, a.route.route).None?
    requires a.entry.routeType == a.route.routeType && a.entry.route == a.route.route
    ensures
      var merged := UpsertMerge(db.dials, a.route.moduleId, a.entry, now);
      && DeleteDial(merged, a.route.moduleId, a.route.routeType, a.route.route) == db.dials
      && |merged| == |db.dials| + 1
  {
    hide LegacyInSync, ModulesOk, NamesOk, TableOk;
    MergeThenDeleteRestores(db.dials, a.route.moduleId, a.entry, now);
  }

  lemma RemoveDials(db: Db, settings: Settings, m: Inbound, now: int)
    requires ParseRoute(m.payload).Success? && RouteGuard(db, settings, m, ParseRoute(m.payload).value.moduleId, true).Success?
    ensures
      var a := ParseRoute(m.payload).value;
      var dials := DeleteDial(db.dials, a.moduleId, a.routeType, a.route);
      var (db', r) := RemoveRoute(db, settings, m, now);
      if |dials| == |db.dials| then r == Failure(DialNotFound) && db' == db else r.Success? && db'.dials == dials
  {
    hide ParseRoute, RouteGuard, RemoveReply, DeleteDial, ListByScope, RouteJson, CanonicalJsonStr;
  }

  /** An accepted remove deletes exactly its own route; a remove of an absent route is refused. */
  lemma RemoveDeletesOneRoute(db: Db, settings: Settings, m: Inbound, now: int)
    requires RegistryOk(db) && ParseRoute(m.payload).Success?
    requires RouteGuard(db, settings, m, ParseRoute(m.payload).value.moduleId, true).Success?
    ensures
      var a := ParseRoute(m.payload).value;
      var (db', r) := RemoveRoute(db, settings, m, now);
      && (r.Success? <==> Lookup(db.dials, a.moduleId, a.routeType, a.route).Some?)
      && Lookup(db'.dials, a.moduleId, a.routeType, a.route).None?
      && forall s, rt, ro :: !(s == a.moduleId && rt == a.routeType && ro == a.route) ==>
           Lookup(db'.dials, s, rt, ro) == Lookup(db.dials, s, rt, ro)
  {
    var a := ParseRoute(m.payload).value;
    hide RemoveRoute, ParseRoute, RouteGuard, DeleteDial, Lookup, LegacyInSync, ModulesOk, NamesOk, TableOk;
    RemoveDials(db, settings, m, now);
    DeleteRefinesMapRemoval(db.dials, a.moduleId, a.routeType, a.route);
    DeleteShrinks(db.dials, a);
    if |DeleteDial(db.dials, a.moduleId, a.routeType, a.route)| == |db.dials| { Handlers.NothingDeleted(db.dials, a); }
  }

  lemma DeleteShrinks(t: seq<DialRow>, a: RouteArgs)
    ensures |DeleteDial(t, a.moduleId, a.routeType, a.route)| <= |t|
  {
    KeepLength(t, NotDial(a.moduleId, a.routeType, a.route));
  }

  /** Nobody but a module's own key changes that module's dials, whatever the operation. */
  lemma OnlyOwnersChangeDials(db: Db, ctx: Context, m: Inbound, now: int, x: DialRow)
    requires RegistryOk(db)
    requires x.scope != CORE_MODULE && !(x.scope in db.modules && db.modules[x.scope].signingKey == m.senderKey)
    ensures x in Dispatch(db, ctx, m, now).0.dials <==> x in db.dials
  {
    hide RegisterName, RegisterOrg, SubmitRoute, RemoveRoute, ReportState, ReadOnly, RegistryOk, WriteOnce, ModulesAreBound;
    hide Branding.WriteUser, Branding.ParseSetImage, Branding.ParseSetDescription;
    RegisterNameKeeps(db, ctx.settings, m, now);
    RegisterOrgKeeps(db, ctx.settings, ctx.platform, m, now);
    OwnerSubmits(db, ctx.settings, m, now, x);
    OwnerRemoves(db, ctx.settings, m, now, x);
    OtherOperationsKeepDials(db, ctx, m, now);
  }

  lemma OtherOperationsKeepDials(db: Db, ctx: Context, m: Inbound, now: int)
    ensures ReportState(db, ctx.platform, m, now).0.dials == db.dials
    ensures Branding.WriteUser(db, ctx.settings, m, Branding.ParseSetImage(m, ctx.platform, now)).0.dials == db.dials
    ensures Branding.WriteUser(db, ctx.settings, m, Branding.ParseSetDescription(m, now)).0.dials == db.dials
  {
    hide ParseReport, ReportReply, Branding.ParseSetImage, Branding.ParseSetDescription, Branding.ApplyWrite, Branding.WriteReply,
         Branding.MayWrite, Branding.MirrorImage;
  }

  lemma OwnerSubmits(db: Db, settings: Settings, m: Inbound, now: int, x: DialRow)
    requires RegistryOk(db)
    requires x.scope != CORE_MODULE && !(x.scope in db.modules && db.modules[x.scope].signingKey == m.senderKey)
    ensures x in SubmitRoute(db, settings, m, now).0.dials <==> x in db.dials
  {
    hide SubmitRoute, ParseSubmit, RouteGuard, RegistryOk, WriteOnce, UpsertMerge, ReplaceAll, DeleteDial, TableOk;
    SubmitRouteKeeps(db, settings, m, now);
    if SubmitRoute(db, settings, m, now).1.Success? {
      SubmitDials(db, settings, m, now);
      var a := ParseSubmit(m.payload).value;
      GuardMeansScope(db, settings, m, a.route.moduleId, a.mode.Merge?);
      StatementTouchesOneScope(db, a.route.moduleId, a.entry, now);
    }
  }

  lemma OwnerRemoves(db: Db, settings: Settings, m: Inbound, now: int, x: DialRow)
    requires RegistryOk(db)
    requires x.scope != CORE_MODULE && !(x.scope in db.modules && db.modules[x.scope].signingKey == m.senderKey)
    ensures x in RemoveRoute(db, settings, m, now).0.dials <==> x in db.dials
  {
    hide RemoveRoute, ParseRoute, RouteGuard, RegistryOk, WriteOnce, UpsertMerge, ReplaceAll, DeleteDial, TableOk;
    RemoveRouteKeeps(db, settings, m, now);
    var parsed := ParseRoute(m.payload);
    if parsed.Success? && RouteGuard(db, settings, m, parsed.value.moduleId, true).Success? {
      var a := parsed.value;
      RemoveDials(db, settings, m, now);
      GuardMeansScope(db, settings, m, a.moduleId, true);
      StatementTouchesOneScope(db, a.moduleId, DialEntry(a.routeType, a.route, 0, None), now);
    } else {
      RefusedRemove(db, settings, m, now);
    }
  }

  lemma RefusedRemove(db: Db, settings: Settings, m: Inbound, now: int)
    requires ParseRoute(m.payload).Failure? || RouteGuard(db, settings, m, ParseRoute(m.payload).value.moduleId, true).Failure?
    ensures RemoveRoute(db, settings, m, now).0 == db
  {
    hide ParseRoute, RouteGuard, RemoveReply, DeleteDial, SyncLegacy;
  }

  // ---- names -------------------------------------------------------------------------

  lemma RegisterNameBinds(db: Db, settings: Settings, m: Inbound, now: int)
    requires RegisterName(db, settings, m, now).1.Success?
    ensures
      var a := ParseRegisterName(m.payload);
      var db' := RegisterName(db, settings, m, now).0;
      a.Success? && a.value.name in db'.names && db'.names[a.value.name].resolvedId == a.value.resolvedId
  {
    hide ParseRegisterName, BindName, NameReply, SenderIsBootstrap;
    BindNameBinds(db.names, ParseRegisterName(m.payload).value, now);
  }

  lemma RegisteredNameParsed(p: JsonValue)
    requires ParseRegisterName(p).Success?
    ensures RequireStr(p, "name").Success?
    ensures ValidateResolve(RequireStr(p, "name").value) == Success(ParseRegisterName(p).value.name)
  {
    hide RequireStr, ValidateResolve, ValidateResolvedId, CanonicalDict;
  }

  lemma SameNameField(p: JsonValue, q: JsonValue)
    requires Field(p, "name") == Field(q, "name")
    ensures RequireStr(p, "name") == RequireStr(q, "name")
  {
    hide Strip;
  }

  /** A name registered with `register_name` resolves to its identity, at once and in every later state without a reset. */
  lemma RegisteredNameResolves(db: Db, settings: Settings, m: Inbound, now: int, later: Db, q: Inbound)
    requires RegisterName(db, settings, m, now).1.Success?
    requires RegistryOk(later) && WriteOnce(RegisterName(db, settings, m, now).0, later)
    requires Field(q.payload, "name") == Field(m.payload, "name")
    ensures
      var a := ParseRegisterName(m.payload);
      var r := ResolveName(later, q);
      && a.Success? && r.Success?
      && Field(r.value.payload, "resolved_id") == Some(JStr(a.value.resolvedId))
  {
    hide *;
    RegisterNameBinds(db, settings, m, now);
    RegisteredNameParsed(m.payload);
    SameNameField(m.payload, q.payload);
    BoundNameResolves(RegisterName(db, settings, m, now).0, later, q, ParseRegisterName(m.payload).value.name);
  }

  // ---- the wizard, from issue to completion ----------------------------------------------

  /** What a successful issue stores: a pending row whose body decodes to its own id, times and operator key. */
  lemma IssuedChallengeIsStored(db: Db, platform: Platform, now: int, key: string, id: string, instance: string)
    requires Genesis.Issue(db, platform, now, key, id, instance).1.Success?
    ensures
      var (db', r) := Genesis.Issue(db, platform, now, key, id, instance);
      && id !in db.challenges && id in db'.challenges && !db'.genesis.complete && now >= 0
      && r.value.body == db'.challenges[id].body && r.value.expiresAt == now + 300
      && db'.challenges[id].subjectKey == NormalizeKey(key) && db'.challenges[id].expiresAt == now + 300
      && db'.challenges[id].issuedAt == now && db'.challenges[id].consumedAt.None?
      && (exists c: Challenge ::
            && Issuable(c) && ChallengeText.Body(c) == r.value.body && Decode(r.value.body) == Some(c)
            && c.nonce == id && c.issuedAt == now && c.expiresAt == now + 300 && c.subjectKey == NormalizeKey(key))
      && platform.validKey(NormalizeKey(key))
  {
    hide NormalizeKey, ChallengeText.Body, Issuable, Decode, Genesis.StoredInstanceId;
    var c := Genesis.NewChallenge(Genesis.StoredInstanceId(Genesis.TouchedForIssue(db.genesis, now, instance)).GetOr(""), id, now,
                                  NormalizeKey(key)).value;
    DecodeOfIssued(c);
  }

  lemma SubjectIsHex(c: Challenge)
    requires Issuable(c)
    ensures IsLowerHex(c.subjectKey, 64)
  {
    hide IsInstanceId;
  }

  /** Sign any pasted copy of an issued challenge with the operator key, whatever its line ends and trailing blanks:
      the server accepts the signature until the 300 seconds are over, and not after. */
  lemma PastedChallengeVerifies(
    db: Db, platform: Platform, issuedAt: int, key: string, id: string, instance: string, after: Db, sent: Genesis.Issued,
    ends: nat -> LineEnd, junk: string, signature: string, now: int)
    requires Genesis.Issue(db, platform, issuedAt, key, id, instance) == (after, Success(sent))
    requires forall i | 0 <= i < |junk| :: IsTrailingJunk(junk[i])
    requires IsLowerHex(signature, 128)
    requires platform.verifySignature(NormalizeKey(key), NormalizePasted(Copied(sent.body, ends, 0) + junk), signature)
    ensures id in after.challenges
    ensures
      Genesis.VerifyAndConsume(after, platform, now, id, signature) ==
      if now < issuedAt + 300 then
        (after.(challenges := after.challenges[id := after.challenges[id].(consumedAt := Some(now))],
                genesis := after.genesis.(updatedAt := now)), Success(()))
      else (after, Failure(GenesisChallengeRejected))
  {
    hide Genesis.Issue, NormalizePasted, Copied, NormalizeKey, ChallengeText.Body, Decode, Issuable, IsLowerHex;
    IssuedChallengeIsStored(db, platform, issuedAt, key, id, instance);
    var c: Challenge :| Issuable(c) && ChallengeText.Body(c) == sent.body && c.subjectKey == NormalizeKey(key);
    PastedChallengeIsStoredBody(c, ends, junk);
    SubjectIsHex(c);
  }
}
