// Registering then resolving, over whole runs.
module NameRuns {
  import opened Wrappers
  import opened Text
  import opened Json
  import opened Canonical
  import opened Database
  import opened Names
  import opened Registry
  import opened RegistryLaws
  import opened Core
  import opened StepLaws
  import opened Runs
  import Effects

  /** The name binding an operation asks for, and the name text it was asked with. */
  function Registration(m: Inbound): Option<(NameArgs, JsonValue)> {
    var field := if m.operation == "register_name" then "name" else "organization_name";
    if m.operation == "register_name" && ParseRegisterName(m.payload).Success? && Field(m.payload, field).Some? then
      Some((ParseRegisterName(m.payload).value, Field(m.payload, field).value))
    else if m.operation == "register_org" && ParseOrg(m.payload).Success? && Field(m.payload, field).Some? then
      Some((ParseOrg(m.payload).value.binding, Field(m.payload, field).value))
    else None
  }

  /** An operation that binds names, done on one state: the name is bound, and its text is a text `resolve_name` reads. */
  lemma RegistrationBinds(db: Db, ctx: Context, m: Inbound, now: int)
    requires m.operation == "register_name" || m.operation == "register_org"
    requires Dispatch(db, ctx, m, now).1.Success?
    ensures Registration(m).Some?
    ensures
      var a := Registration(m).value.0;
      var db' := Dispatch(db, ctx, m, now).0;
      a.name in db'.names && db'.names[a.name].resolvedId == a.resolvedId
  {
    hide RegisterName, RegisterOrg, SubmitRoute, RemoveRoute, ReadOnly, ParseRegisterName, ParseOrg, Field;
    if m.operation == "register_name" {
      Effects.RegisterNameBinds(db, ctx.settings, m, now);
      Effects.RegisteredNameParsed(m.payload);
      RequiredIsPresent(m.payload, "name");
    } else {
      RegisterOrgBinds(db, ctx.settings, ctx.platform, m, now);
      OrgNameParsed(m.payload);
      RequiredIsPresent(m.payload, "organization_name");
    }
  }

  lemma RequiredIsPresent(p: JsonValue, key: string)
    ensures RequireStr(p, key).Success? ==> Field(p, key).Some?
  {
    hide Strip;
  }

  /** The text of a registration reads as the registered name. */
  lemma RegistrationParses(m: Inbound, q: Inbound)
    requires Registration(m).Some? && Field(q.payload, "name") == Some(Registration(m).value.1)
    ensures RequireStr(q.payload, "name").Success?
    ensures ValidateResolve(RequireStr(q.payload, "name").value) == Success(Registration(m).value.0.name)
  {
    hide ParseRegisterName, ParseOrg, Field, RequireStr, ValidateResolve;
    if m.operation == "register_name" {
      Effects.RegisteredNameParsed(m.payload);
      Effects.SameNameField(m.payload, q.payload);
    } else {
      SameNameParses(m.payload, q.payload);
    }
  }

  // ---- one event --------------------------------------------------------------------------

  lemma ExecutionBinds(db: Db, ctx: Context, body: Body, now: real, later: real)
    requires DedupOk(db.dedup) && RegistryOk(db) && Executed(db, ctx, Message(body, now, later)).Some?
    requires
      var m := Executed(db, ctx, Message(body, now, later)).value.message;
      m.operation == "register_name" || m.operation == "register_org"
    ensures
      var m := Executed(db, ctx, Message(body, now, later)).value.message;
      var db' := Step(db, ctx, Message(body, now, later)).0;
      && Registration(m).Some?
      && Registration(m).value.0.name in db'.names
      && db'.names[Registration(m).value.0.name].resolvedId == Registration(m).value.0.resolvedId
  {
    hide *;
    PostOutcome(db, ctx, body, now, later);
    var x := Executed(db, ctx, Message(body, now, later)).value;
    var row := DedupRow(ctx.platform.sha256Hex(x.signedText), VALIDATED_MARK, PyInt(now));
    var ready := db.(dedup := Prune(db.dedup, PyInt(now) - ctx.settings.replayWindow)[x.message.messageId := row]);
    RegistrationBinds(ready, ctx, x.message, PyInt(later));
    var (done, r) := Dispatch(ready, ctx, x.message, PyInt(later));
    SummaryKeepsNames(done, x.message.messageId, Render(SuccessEnvelope(ctx, x.message, r.value, later), PythonUtf8));
  }

  lemma SummaryKeepsNames(db: Db, id: string, summary: string)
    ensures StoreSummary(db, id, summary).names == db.names
  {
  }

  /** The id has no row inside the window. */
  predicate Unseen(db: Db, ctx: Context, m: Inbound, now: real) {
    m.messageId in db.dedup ==> db.dedup[m.messageId].firstSeenAt < PyInt(now) - ctx.settings.replayWindow
  }

  /** A new request that reads the registered name's text is answered, whatever else happened to the tables. */
  lemma ResolveIsAnswered(db: Db, ctx: Context, q: Inbound, name: string, body: Body, now: real, later: real)
    requires RegistryOk(db) && name in db.names && q.operation == "resolve_name"
    requires RequireStr(q.payload, "name").Success?
    requires ValidateResolve(RequireStr(q.payload, "name").value) == Success(name)
    requires Presented(db, ctx, body, now).Some? && Presented(db, ctx, body, now).value.0 == q && Unseen(db, ctx, q, now)
    ensures
      var r := ResolveName(db, q);
      var e := Message(body, now, later);
      && r.Success? && Field(r.value.payload, "resolved_id") == Some(JStr(db.names[name].resolvedId))
      && Executed(db, ctx, e).Some? && Step(db, ctx, e).1 == Replied(SuccessEnvelope(ctx, q, r.value, later))
  {
    hide *;
    WriteOnceReflexive(db);
    BoundNameResolves(db, db, q, name);
    ResolveIsNew(db, ctx, body, now);
    var admitted := Validate(db, ctx, body, now).value.0;
    DispatchResolves(admitted, ctx, q, PyInt(later));
    ResolveReadsNames(db, admitted, q);
    NewMessageRuns(db, ctx, body, now, later);
  }

  /** A request that passes every check, with an unseen id, is admitted with only the dedup table changed. */
  lemma ResolveIsNew(db: Db, ctx: Context, body: Body, now: real)
    requires Presented(db, ctx, body, now).Some? && Unseen(db, ctx, Presented(db, ctx, body, now).value.0, now)
    ensures
      var v := Validate(db, ctx, body, now);
      v.Success? && v.value.0.names == db.names && v.value.1.message == Presented(db, ctx, body, now).value.0 && v.value.1.admission.New?
  {
    hide Presented, Prune, Validate, PyInt;
    ValidateIsPresented(db, ctx, body, now);
    PruneKeepsRows(db.dedup, PyInt(now) - ctx.settings.replayWindow);
  }

  lemma NewMessageRuns(db: Db, ctx: Context, body: Body, now: real, later: real)
    requires Validate(db, ctx, body, now).Success? && Validate(db, ctx, body, now).value.1.admission.New?
    requires
      var (admitted, a) := Validate(db, ctx, body, now).value;
      Dispatch(admitted, ctx, a.message, PyInt(later)).1.Success?
    ensures
      var (admitted, a) := Validate(db, ctx, body, now).value;
      var e := Message(body, now, later);
      && Executed(db, ctx, e).Some?
      && Step(db, ctx, e).1 == Replied(SuccessEnvelope(ctx, a.message, Dispatch(admitted, ctx, a.message, PyInt(later)).1.value, later))
  {
    hide Validate, Dispatch, SuccessEnvelope, Render, StoreSummary, PyInt;
  }

  lemma DispatchResolves(db: Db, ctx: Context, q: Inbound, now: int)
    requires q.operation == "resolve_name"
    ensures Dispatch(db, ctx, q, now) == (db, ResolveName(db, q))
  {
    hide RegisterName, RegisterOrg, SubmitRoute, RemoveRoute, ResolveName, ReverseResolve, GetModuleRoute, LookupModule;
  }

  lemma ResolveReadsNames(db: Db, db': Db, q: Inbound)
    requires db'.names == db.names
    ensures ResolveName(db', q) == ResolveName(db, q)
  {
    hide RequireStr, ValidateResolve, NameEntry;
  }

  /** The reply's payload is a member of the response. */
  lemma EnvelopePayload(ctx: Context, m: Inbound, reply: Reply, later: real)
    ensures Field(SuccessEnvelope(ctx, m, reply, later), "payload") == Some(reply.payload)
  {
    hide Dict, Find, WellFormed;
    var pairs := [
      Pair("protocol_version", JStr(PROTOCOL_VERSION)), Pair("message_id", JStr(m.messageId + ":response")),
      Pair("correlation_id", JStr(m.messageId)), Pair("target_module", JStr(CORE_MODULE)),
      Pair("target_module_version", JStr(PROTOCOL_VERSION)), Pair("operation", JStr(m.operation + "_response")),
      Pair("timestamp", JStr(ctx.platform.stamp(later))), Pair("status", JStr("success")), Pair("code", JStr(reply.code)),
      Pair("payload", reply.payload), Pair("payload_hash", JStr(ctx.platform.sha256Hex(CanonicalJsonStr(reply.payload))))];
    assert SuccessEnvelope(ctx, m, reply, later) == ObjectOf(pairs);
    PairFound(pairs, 9);
  }

  // ---- runs ---------------------------------------------------------------------------------

  /** The identity a resolve response names. */
  function ResolvedId(r: Response): Option<Json> {
    if r.Replied? then
      match Get(r.body, "payload")
      case Some(p) => Get(p, "resolved_id")
      case None => None
    else None
  }

  /** Once a registration has run, and while no reset succeeds, every new request that asks for its name text runs and
      answers with the registered identity. */
  lemma RegisteredNamesResolve(t: Trace, i: nat, j: nat)
    requires IsRun(t) && i < j < |t.entries| && NoReset(t, i + 1, j)
    requires t.entries[i].executed && t.entries[i].presented.Some? && t.entries[j].presented.Some?
    requires
      var m := t.entries[i].presented.value.message;
      var q := t.entries[j].presented.value.message;
      && (m.operation == "register_name" || m.operation == "register_org") && q.operation == "resolve_name"
      && Unseen(DbAt(t, j), t.ctx, q, t.entries[j].event.now)
      && (Registration(m).Some? ==> Field(q.payload, "name") == Some(Registration(m).value.1))
    ensures
      var m := t.entries[i].presented.value.message;
      && Registration(m).Some? && t.entries[j].executed
      && ResolvedId(t.entries[j].response) == Some(Str(Registration(m).value.0.resolvedId))
  {
    hide *;
    var m, q := t.entries[i].presented.value.message, t.entries[j].presented.value.message;
    EntryBinds(t, i);
    RegistrationParses(m, q);
    var a := Registration(m).value.0;
    RegistryIsWriteOnce(t, i + 1, j);
    BoundStays(DbAt(t, i + 1), DbAt(t, j), a.name);
    EntryResolves(t, j, a.name);
  }

  lemma BoundStays(db: Db, later: Db, name: string)
    requires WriteOnce(db, later) && name in db.names
    ensures name in later.names && later.names[name].resolvedId == db.names[name].resolvedId
  {
  }

  lemma EntryBinds(t: Trace, i: nat)
    requires IsRun(t) && i < |t.entries| && t.entries[i].executed && t.entries[i].presented.Some?
    requires
      var m := t.entries[i].presented.value.message;
      m.operation == "register_name" || m.operation == "register_org"
    ensures
      var m := t.entries[i].presented.value.message;
      && Registration(m).Some? && Registration(m).value.0.name in DbAt(t, i + 1).names
      && DbAt(t, i + 1).names[Registration(m).value.0.name].resolvedId == Registration(m).value.0.resolvedId
  {
    hide *;
    EntryIsStep(t, i);
    ExecutedIsPresented(t, i);
    ReachableStateOk(t, i);
    StateParts(DbAt(t, i), t.ctx.platform);
    var e := t.entries[i].event;
    ExecutionBinds(DbAt(t, i), t.ctx, e.body, e.now, e.later);
  }

  lemma EntryResolves(t: Trace, j: nat, name: string)
    requires IsRun(t) && j < |t.entries| && t.entries[j].presented.Some? && name in DbAt(t, j).names
    requires
      var q := t.entries[j].presented.value.message;
      && q.operation == "resolve_name" && Unseen(DbAt(t, j), t.ctx, q, t.entries[j].event.now)
      && RequireStr(q.payload, "name").Success?
      && ValidateResolve(RequireStr(q.payload, "name").value) == Success(name)
    ensures t.entries[j].executed && ResolvedId(t.entries[j].response) == Some(Str(DbAt(t, j).names[name].resolvedId))
  {
    hide Step, Executed, Presented, StateOk, RegistryOk, RequireStr, ValidateResolve, ResolveName, SuccessEnvelope, Unseen, Recorded, IsRun;
    var q := t.entries[j].presented.value.message;
    var db, e := DbAt(t, j), t.entries[j].event;
    EntryIsStep(t, j);
    ReachableStateOk(t, j);
    StateParts(db, t.ctx.platform);
    ResolveIsAnswered(db, t.ctx, q, name, e.body, e.now, e.later);
    EnvelopePayload(t.ctx, q, ResolveName(db, q).value, e.later);
  }
}
