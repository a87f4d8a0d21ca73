// What one request keeps: the invariants of every reachable state, and what stays unchanged.
module StepLaws {
  import opened Wrappers
  import opened Errors
  import opened Text
  import opened Json
  import opened JsonRoundTrip
  import opened Canonical
  import opened Signing
  import opened Database
  import opened Dials
  import opened Registry
  import opened RegistryLaws
  import opened ModuleState
  import opened Core
  import opened ChallengeText
  import Genesis
  import Branding

  // ---- the invariant of every reachable state ---------------------------------------

  /** Every dedup row holds a response that can be replayed. */
  ghost predicate DedupOk(dedup: map<string, DedupRow>) {
    forall id :: id in dedup ==> ParseStored(dedup[id].resultSummary).Some?
  }

  predicate ChallengeOk(row: ChallengeRow, platform: Platform) {
    && IsLowerHex(row.subjectKey, 64) && platform.validKey(row.subjectKey)
    && row.expiresAt == row.issuedAt + Genesis.CHALLENGE_TTL
    && (row.consumedAt.Some? ==> row.consumedAt.value < row.expiresAt)
  }

  ghost predicate ChallengesOk(challenges: map<string, ChallengeRow>, platform: Platform) {
    forall id :: id in challenges ==> ChallengeOk(challenges[id], platform)
  }

  /** Complete iff labelled iff keyed; the label reads back unchanged and is a bound name, the key is normal. */
  predicate GenesisOk(g: GenesisRow, names: map<string, NameRow>) {
    && (g.complete <==> g.rootLabel.Some?)
    && (g.complete <==> g.bootstrapKey.Some?)
    && (g.complete ==> Genesis.SnapshotLabel(g) == g.rootLabel && g.rootLabel.value in names)
    && (g.complete ==> IsLowerHex(g.bootstrapKey.value, 64))
  }

  ghost predicate StateOk(db: Db, platform: Platform) {
    RegistryOk(db) && DedupOk(db.dedup) && ChallengesOk(db.challenges, platform) && GenesisOk(db.genesis, db.names)
  }

  lemma EmptyStateOk(platform: Platform)
    ensures StateOk(EMPTY_DB, platform) && ModulesAreBound(EMPTY_DB)
  {
    EmptyRegistryOk();
    hide RegistryOk;
  }

  // ---- dispatch -------------------------------------------------------------------------

  /** Only the mirrored operator image of the genesis row may change. */
  predicate GenesisKept(g: GenesisRow, g': GenesisRow) {
    g'.(operatorImage := g.operatorImage, updatedAt := g.updatedAt) == g
  }

  predicate SameRegistry(db: Db, db': Db) {
    db'.names == db.names && db'.modules == db.modules && db'.dials == db.dials && db'.coreRoute == db.coreRoute
  }

  lemma RegistryFrame(db: Db, db': Db)
    requires SameRegistry(db, db')
    ensures RegistryOk(db) ==> RegistryOk(db')
    ensures WriteOnce(db, db') && (ModulesAreBound(db) ==> ModulesAreBound(db'))
  {
    hide TableOk, ModulesOk, NamesOk, ListByScope;
  }

  lemma SameKeysStayBound(db: Db, db': Db)
    requires db'.names == db.names && db'.modules.Keys == db.modules.Keys && ModulesAreBound(db)
    ensures ModulesAreBound(db')
  {
    forall k | k in db'.modules ensures exists n :: n in db'.names && Lower(n) == k { assert k in db.modules; }
  }

  /** What every operation keeps, whether it succeeds or fails half-way. */
  ghost predicate Kept(db: Db, db': Db) {
    && RegistryOk(db') && WriteOnce(db, db') && (ModulesAreBound(db) ==> ModulesAreBound(db'))
    && db'.dedup == db.dedup && db'.challenges == db.challenges && GenesisKept(db.genesis, db'.genesis)
  }

  lemma RegistryOperationsKeep(db: Db, ctx: Context, m: Inbound, now: int)
    requires RegistryOk(db)
    ensures Kept(db, RegisterName(db, ctx.settings, m, now).0)
    ensures Kept(db, RegisterOrg(db, ctx.settings, ctx.platform, m, now).0)
    ensures Kept(db, SubmitRoute(db, ctx.settings, m, now).0)
    ensures Kept(db, RemoveRoute(db, ctx.settings, m, now).0)
  {
    hide RegisterName, RegisterOrg, SubmitRoute, RemoveRoute, RegistryOk, WriteOnce, ModulesAreBound;
    RegisterNameKeeps(db, ctx.settings, m, now);
    RegisterOrgKeeps(db, ctx.settings, ctx.platform, m, now);
    SubmitRouteKeeps(db, ctx.settings, m, now);
    RemoveRouteKeeps(db, ctx.settings, m, now);
    if ModulesAreBound(db) {
      SameKeysStayBound(db, SubmitRoute(db, ctx.settings, m, now).0);
      SameKeysStayBound(db, RemoveRoute(db, ctx.settings, m, now).0);
    }
  }

  lemma ReportKeeps(db: Db, ctx: Context, m: Inbound, now: int)
    requires RegistryOk(db)
    ensures Kept(db, ReportState(db, ctx.platform, m, now).0)
    ensures ReportState(db, ctx.platform, m, now).0.users == db.users
  {
    hide ParseReport, ReportReply, RegistryOk, WriteOnce, ModulesAreBound;
    RegistryFrame(db, ReportState(db, ctx.platform, m, now).0);
  }

  lemma WriteUserKeeps(db: Db, ctx: Context, m: Inbound, w: Result<Branding.UserWrite, ErrorCode>)
    requires RegistryOk(db)
    ensures Kept(db, Branding.WriteUser(db, ctx.settings, m, w).0)
  {
    hide RegistryOk, WriteOnce, ModulesAreBound, Branding.ApplyWrite, Branding.WriteReply, Branding.MayWrite;
    RegistryFrame(db, Branding.WriteUser(db, ctx.settings, m, w).0);
  }

  lemma DispatchKeeps(db: Db, ctx: Context, m: Inbound, now: int)
    requires RegistryOk(db)
    ensures Kept(db, Dispatch(db, ctx, m, now).0)
  {
    hide RegisterName, RegisterOrg, SubmitRoute, RemoveRoute, ReportState, ReadOnly, RegistryOk, WriteOnce, ModulesAreBound;
    hide Branding.WriteUser, Branding.ParseSetImage, Branding.ParseSetDescription;
    RegistryOperationsKeep(db, ctx, m, now);
    ReportKeeps(db, ctx, m, now);
    WriteUserKeeps(db, ctx, m, Branding.ParseSetImage(m, ctx.platform, now));
    WriteUserKeeps(db, ctx, m, Branding.ParseSetDescription(m, now));
    RegistryFrame(db, db);
  }

  /** The user write an operation asks for. */
  function RequestedWrite(ctx: Context, m: Inbound, now: int): Option<Branding.UserWrite> {
    var parsed :=
      if m.operation == "set_user_profile_image" then Branding.ParseSetImage(m, ctx.platform, now)
      else if m.operation == "set_user_description" then Branding.ParseSetDescription(m, now)
      else Failure(UnsupportedOperation);
    if parsed.Success? then Some(parsed.value) else None
  }

  /** A successful operation applies exactly the user write it asked for; every other operation leaves the table alone. */
  lemma DispatchWritesUsers(db: Db, ctx: Context, m: Inbound, now: int)
    requires RegistryOk(db) && Dispatch(db, ctx, m, now).1.Success?
    ensures
      var w := RequestedWrite(ctx, m, now);
      Dispatch(db, ctx, m, now).0.users == if w.Some? then Branding.ApplyWrite(db.users, w.value) else db.users
  {
    hide RegisterName, RegisterOrg, SubmitRoute, RemoveRoute, ReportState, ReadOnly;
    hide Branding.ParseSetImage, Branding.ParseSetDescription, Branding.ApplyWrite, Branding.WriteReply;
    hide RegistryOk, WriteOnce, ModulesAreBound, SenderIsBootstrap;
    RegisterNameKeeps(db, ctx.settings, m, now);
    RegisterOrgKeeps(db, ctx.settings, ctx.platform, m, now);
    SubmitRouteKeeps(db, ctx.settings, m, now);
    RemoveRouteKeeps(db, ctx.settings, m, now);
    ReportKeeps(db, ctx, m, now);
  }

  // ---- one message ---------------------------------------------------------------------

  /** A request that passes every check up to deduplication. */
  function Presented(db: Db, ctx: Context, body: Body, now: real): Option<(Inbound, string)> {
    match ReadEnvelope(body, ctx.settings)
    case Failure(_) => None
    case Success(env) =>
      match CheckEnvelope(env, ctx, now)
      case Failure(_) => None
      case Success(m) =>
        if env.Obj? && SenderIsBootstrap(ctx.settings, db.genesis, m.senderKey) then Some((m, SigningText(env))) else None
  }

  lemma ValidateIsPresented(db: Db, ctx: Context, body: Body, now: real)
    ensures
      var p := Presented(db, ctx, body, now);
      var v := Validate(db, ctx, body, now);
      && (v.Success? ==> p.Some?)
      && (p.Some? ==>
            var (m, text) := p.value;
            var fingerprint := ctx.platform.sha256Hex(text);
            match Deduplicate(db.dedup, ctx.settings, m.messageId, fingerprint, now)
            case Failure(e) => v == Failure(e)
            case Success((dedup, admission)) =>
              v == Success((db.(dedup := dedup), Admitted(m, fingerprint, text, admission))))
  {
    hide ReadEnvelope, CheckEnvelope, SenderIsBootstrap, Deduplicate, SigningText;
  }

  /** A committed execution: the message that ran, the text its sender signed, and when it was validated. */
  datatype Execution = Execution(message: Inbound, signedText: string, at: real)

  function Executed(db: Db, ctx: Context, e: Event): Option<Execution> {
    match e
    case Message(body, now, later) =>
      (match Validate(db, ctx, body, now)
       case Failure(_) => None
       case Success((admitted, a)) =>
         if a.admission.New? && Dispatch(admitted, ctx, a.message, PyInt(later)).1.Success?
         then Some(Execution(a.message, a.signedText, now)) else None)
    case _ => None
  }

  /** Every refusal leaves the committed tables exactly as they were. */
  lemma RefusedChangesNothing(db: Db, ctx: Context, e: Event)
    ensures Step(db, ctx, e).1.Refused? ==> Step(db, ctx, e).0 == db
  {
    hide Validate, Dispatch, ParseStored, SuccessEnvelope, Render;
    hide Genesis.Issue, Genesis.VerifyAndConsume, Genesis.Complete, Genesis.Reset;
  }

  /** `register_org` that binds a name and then fails on the reserved module: its working tables hold the new
      binding, the committed ones do not. */
  lemma ReservedModuleRollsBack(db: Db, ctx: Context, body: Body, now: real, later: real)
    requires Validate(db, ctx, body, now).Success?
    requires
      var (admitted, a) := Validate(db, ctx, body, now).value;
      && a.admission.New? && a.message.operation == "register_org"
      && SenderIsBootstrap(ctx.settings, admitted.genesis, a.message.senderKey)
      && ParseOrg(a.message.payload).Success?
      && var org := ParseOrg(a.message.payload).value;
         org.signingKey.Some? && Lower(org.binding.name) == CORE_MODULE && org.binding.name !in db.names
    ensures
      var (admitted, a) := Validate(db, ctx, body, now).value;
      var name := ParseOrg(a.message.payload).value.binding.name;
      var (dirty, r) := Dispatch(admitted, ctx, a.message, PyInt(later));
      && name in dirty.names && r == Failure(ModuleNameReserved)
      && Step(db, ctx, Message(body, now, later)) == (db, Refused(ModuleNameReserved))
  {
    ValidateIsPresented(db, ctx, body, now);
    hide Validate, Presented, Deduplicate, ParseOrg, SenderIsBootstrap, Lower, OrgReply, ReadOnly, RegisterName, SubmitRoute, RemoveRoute,
         ReportState, Branding.WriteUser, SuccessEnvelope, Render, ParseStored;
  }

  // ---- stored responses -------------------------------------------------------------------

  /** A stored response text reads back as the response that was sent. */
  lemma StoredResponseParses(ctx: Context, m: Inbound, reply: Reply, later: real)
    ensures ParseStored(Render(SuccessEnvelope(ctx, m, reply, later), PythonUtf8)) == Some(SuccessEnvelope(ctx, m, reply, later))
  {
    var env := SuccessEnvelope(ctx, m, reply, later);
    EnvelopeHasStatus(ctx, m, reply, later);
    hide SuccessEnvelope, Find;
    RenderedObjectIsTrimmed(env, PythonUtf8);
    ParseOfRender(env, PythonUtf8);
    hide Parse, Render, Strip;
  }

  lemma EnvelopeHasStatus(ctx: Context, m: Inbound, reply: Reply, later: real)
    ensures
      var env := SuccessEnvelope(ctx, m, reply, later);
      env.Obj? && Find(env.members, "status") == Some(Str("success"))
  {
    hide Dict, Find, CanonicalJsonStr;
    var pairs := [
      Pair("protocol_version", JStr(PROTOCOL_VERSION)), Pair("message_id", JStr(m.messageId + ":response")),
      Pair("correlation_id", JStr(m.messageId)), Pair("target_module", JStr(CORE_MODULE)),
      Pair("target_module_version", JStr(PROTOCOL_VERSION)), Pair("operation", JStr(m.operation + "_response")),
      Pair("timestamp", JStr(ctx.platform.stamp(later))), Pair("status", JStr("success")), Pair("code", JStr(reply.code)),
      Pair("payload", reply.payload), Pair("payload_hash", JStr(ctx.platform.sha256Hex(CanonicalJsonStr(reply.payload))))];
    assert SuccessEnvelope(ctx, m, reply, later) == ObjectOf(pairs);
    FindDict(pairs, 7);
  }

  // ---- what a message leaves in the tables ------------------------------------------------------

  lemma PruneKeepsRows(dedup: map<string, DedupRow>, cutoff: int)
    ensures forall id :: id in Prune(dedup, cutoff) <==> id in dedup && dedup[id].firstSeenAt >= cutoff
    ensures forall id :: id in Prune(dedup, cutoff) ==> Prune(dedup, cutoff)[id] == dedup[id]
    ensures DedupOk(dedup) ==> DedupOk(Prune(dedup, cutoff))
  {
    hide ParseStored;
  }

  /** The tables after a message: an execution dispatches, replays and refusals do not. */
  lemma PostOutcome(db: Db, ctx: Context, body: Body, now: real, later: real)
    requires DedupOk(db.dedup)
    ensures
      var e := Message(body, now, later);
      var (db', response) := Step(db, ctx, e);
      var x := Executed(db, ctx, e);
      var kept := Prune(db.dedup, PyInt(now) - ctx.settings.replayWindow);
      if x.Some? then
        var m := x.value.message;
        var row := DedupRow(ctx.platform.sha256Hex(x.value.signedText), VALIDATED_MARK, PyInt(now));
        var (done, r) := Dispatch(db.(dedup := kept[m.messageId := row]), ctx, m, PyInt(later));
        && r.Success? && m.messageId !in kept
        && Presented(db, ctx, body, now) == Some((m, x.value.signedText))
        && db' == StoreSummary(done, m.messageId, Render(SuccessEnvelope(ctx, m, r.value, later), PythonUtf8))
        && response == Replied(SuccessEnvelope(ctx, m, r.value, later))
      else
        db' == if response.Replied? then db.(dedup := kept) else db
  {
    ValidateIsPresented(db, ctx, body, now);
    PruneKeepsRows(db.dedup, PyInt(now) - ctx.settings.replayWindow);
    hide Validate, Presented, Prune, Dispatch, SuccessEnvelope, ParseStored, Render, StoreSummary;
    var p := Presented(db, ctx, body, now);
    assert p.Some? ==> p == Some((p.value.0, p.value.1));
  }

  /** A recognised replay is always answered, from the stored response. */
  lemma ReplayIsAnswered(db: Db, ctx: Context, body: Body, now: real, later: real)
    requires DedupOk(db.dedup) && Presented(db, ctx, body, now).Some?
    requires
      var (m, text) := Presented(db, ctx, body, now).value;
      && m.messageId in db.dedup && db.dedup[m.messageId].fingerprint == ctx.platform.sha256Hex(text)
      && db.dedup[m.messageId].firstSeenAt >= PyInt(now) - ctx.settings.replayWindow
    ensures
      var id := Presented(db, ctx, body, now).value.0.messageId;
      Step(db, ctx, Message(body, now, later))
      == (db.(dedup := Prune(db.dedup, PyInt(now) - ctx.settings.replayWindow)),
          Replied(ParseStored(db.dedup[id].resultSummary).value))
  {
    hide Validate, Presented, Prune, Dispatch, SuccessEnvelope, ParseStored, Render, StoreSummary, PyInt;
    ValidateIsPresented(db, ctx, body, now);
    PruneKeepsRows(db.dedup, PyInt(now) - ctx.settings.replayWindow);
  }

  lemma FreshRowSurvivesMessage(db: Db, ctx: Context, body: Body, now: real, later: real, id: string)
    requires DedupOk(db.dedup) && RegistryOk(db) && id in db.dedup
    requires PyInt(now) - ctx.settings.replayWindow <= db.dedup[id].firstSeenAt
    ensures
      var db' := Step(db, ctx, Message(body, now, later)).0;
      id in db'.dedup && db'.dedup[id] == db.dedup[id]
  {
    hide RegistryOk, DedupOk, Prune, Dispatch, Render, WriteOnce, ModulesAreBound, Presented, SuccessEnvelope, Executed, Step, Kept;
    PostOutcome(db, ctx, body, now, later);
    PruneKeepsRows(db.dedup, PyInt(now) - ctx.settings.replayWindow);
    var x := Executed(db, ctx, Message(body, now, later));
    if x.Some? {
      var row := DedupRow(ctx.platform.sha256Hex(x.value.signedText), VALIDATED_MARK, PyInt(now));
      var kept := Prune(db.dedup, PyInt(now) - ctx.settings.replayWindow);
      var ready := db.(dedup := kept[x.value.message.messageId := row]);
      RegistryFrame(db, ready);
      DispatchKeeps(ready, ctx, x.value.message, PyInt(later));
      KeptDedup(ready, Dispatch(ready, ctx, x.value.message, PyInt(later)).0);
    }
  }

  /** While a row is within the replay window of an event's clock, the event leaves that row exactly as it is. */
  lemma FreshRowSurvives(db: Db, ctx: Context, e: Event, id: string)
    requires DedupOk(db.dedup) && RegistryOk(db) && id in db.dedup
    requires PyInt(e.now) - ctx.settings.replayWindow <= db.dedup[id].firstSeenAt
    ensures
      var db' := Step(db, ctx, e).0;
      id in db'.dedup && db'.dedup[id] == db.dedup[id]
  {
    hide RegistryOk, DedupOk, Step;
    if e.Message? {
      FreshRowSurvivesMessage(db, ctx, e.body, e.now, e.later, id);
    } else {
      WizardKeepsOthers(db, ctx, e);
    }
  }

  /** The tables a wizard step may write. */
  predicate WizardFrame(db: Db, db': Db) { db'.(names := db.names, challenges := db.challenges, genesis := db.genesis) == db }

  lemma IssueAndVerifyFrame(db: Db, platform: Platform, now: int, key: string, id: string, instance: string, signature: string)
    ensures WizardFrame(db, Genesis.Issue(db, platform, now, key, id, instance).0)
    ensures WizardFrame(db, Genesis.VerifyAndConsume(db, platform, now, id, signature).0)
  {
    hide Genesis.NewChallenge, Genesis.TouchedForIssue, Genesis.Consumable, Genesis.StoredInstanceId, NormalizeKey, ChallengeText.Body;
  }

  lemma CompleteAndResetFrame(db: Db, platform: Platform, now: int, a: Genesis.CompleteArgs, override: Option<string>)
    ensures WizardFrame(db, Genesis.Complete(db, platform, now, a).0)
    ensures WizardFrame(db, Genesis.Reset(db, now, override).0)
  {
    hide Genesis.CheckCompletion, Genesis.ResetLabel, Genesis.BindRoot, Genesis.ClearedGenesis, IsLowerHex;
  }

  /** Wizard requests and resets leave every other table alone. */
  lemma WizardKeepsOthers(db: Db, ctx: Context, e: Event)
    requires !e.Message?
    ensures WizardFrame(db, Step(db, ctx, e).0)
  {
    hide Genesis.Issue, Genesis.VerifyAndConsume, Genesis.Complete, Genesis.Reset, IssuedBody, CompletedBody, Post;
    match e
    case Challenge(now, key, id, instance) => IssueAndVerifyFrame(db, ctx.platform, PyInt(now), key, id, instance, "");
    case Verify(now, id, signature) => IssueAndVerifyFrame(db, ctx.platform, PyInt(now), "", id, "", signature);
    case Complete(now, args) => CompleteAndResetFrame(db, ctx.platform, PyInt(now), args, None);
    case ResetCommand(now, override) =>
      CompleteAndResetFrame(db, ctx.platform, PyInt(now), Genesis.CompleteArgs("", "", "", "", None, None, None), override);
  }

  // ---- every step keeps the invariant ------------------------------------------------------------

  lemma MessageKeeps(db: Db, ctx: Context, body: Body, now: real, later: real)
    requires RegistryOk(db) && DedupOk(db.dedup)
    ensures
      var db' := Step(db, ctx, Message(body, now, later)).0;
      Kept(db, db'.(dedup := db.dedup)) && DedupOk(db'.dedup)
  {
    hide *;
    var e := Message(body, now, later);
    PostOutcome(db, ctx, body, now, later);
    KeptReflexive(db);
    PrunedDedupOk(db.dedup, PyInt(now) - ctx.settings.replayWindow);
    var x := Executed(db, ctx, e);
    if x.Some? {
      var m := x.value.message;
      var row := DedupRow(ctx.platform.sha256Hex(x.value.signedText), VALIDATED_MARK, PyInt(now));
      var kept := Prune(db.dedup, PyInt(now) - ctx.settings.replayWindow);
      var ready := db.(dedup := kept[m.messageId := row]);
      DedupIsApart(db, kept[m.messageId := row]);
      RegistryFrame(db, ready);
      DispatchKeeps(ready, ctx, m, PyInt(later));
      var (done, r) := Dispatch(ready, ctx, m, PyInt(later));
      StoredResponseParses(ctx, m, r.value, later);
      KeptDedup(ready, done);
      StoredSummary(done, m.messageId, Render(SuccessEnvelope(ctx, m, r.value, later), PythonUtf8));
      var stored := row.(resultSummary := Render(SuccessEnvelope(ctx, m, r.value, later), PythonUtf8));
      StoredDedupOk(kept, m.messageId, row, stored.resultSummary);
      assert kept[m.messageId := row][m.messageId := stored] == kept[m.messageId := stored];
      KeptThrough(db, ready, done, Step(db, ctx, e).0.(dedup := db.dedup));
    }
  }

  lemma DedupIsApart(db: Db, dedup: map<string, DedupRow>)
    ensures SameRegistry(db, db.(dedup := dedup))
  {
  }

  lemma StoredSummary(db: Db, id: string, summary: string)
    requires id in db.dedup
    ensures StoreSummary(db, id, summary) == db.(dedup := db.dedup[id := db.dedup[id].(resultSummary := summary)])
  {
  }

  lemma KeptReflexive(db: Db)
    requires RegistryOk(db)
    ensures Kept(db, db)
  {
    hide RegistryOk, WriteOnce, ModulesAreBound;
    RegistryFrame(db, db);
  }

  lemma KeptDedup(db: Db, db': Db)
    requires Kept(db, db')
    ensures db'.dedup == db.dedup
  {
    hide RegistryOk, WriteOnce, ModulesAreBound, GenesisKept;
  }

  lemma PrunedDedupOk(dedup: map<string, DedupRow>, cutoff: int)
    requires DedupOk(dedup)
    ensures DedupOk(Prune(dedup, cutoff))
  {
    hide ParseStored;
  }

  lemma StoredDedupOk(kept: map<string, DedupRow>, id: string, row: DedupRow, summary: string)
    requires DedupOk(kept) && ParseStored(summary).Some?
    ensures DedupOk(kept[id := row.(resultSummary := summary)])
  {
    hide ParseStored;
  }

  /** `Kept` does not look at the dedup table. */
  lemma KeptThrough(db: Db, ready: Db, done: Db, db': Db)
    requires ready.(dedup := db.dedup) == db && Kept(ready, done) && db'.(dedup := done.dedup) == done && db'.dedup == db.dedup
    ensures Kept(db, db')
  {
    hide TableOk, ModulesOk, NamesOk, LegacyInSync;
    RegistryFrame(done, db');
    RegistryFrame(ready, db);
    if ModulesAreBound(db) { RegistryFrame(db, ready); }
  }

  lemma KeptGenesisOk(db: Db, db': Db)
    requires WriteOnce(db, db') && GenesisKept(db.genesis, db'.genesis) && GenesisOk(db.genesis, db.names)
    ensures GenesisOk(db'.genesis, db'.names)
  {
    hide Strip, Lower, IsLowerHex;
  }

  lemma IssuedRowOk(platform: Platform, instanceId: string, id: string, now: int, key: string, body: string)
    requires Genesis.NewChallenge(instanceId, id, now, key).Success? && platform.validKey(key)
    ensures ChallengeOk(ChallengeRow(key, body, now, now + Genesis.CHALLENGE_TTL, None), platform)
  {
    hide IsInstanceId;
  }

  lemma IssueKeepsChallenges(db: Db, platform: Platform, now: int, key: string, id: string, instance: string)
    requires ChallengesOk(db.challenges, platform)
    ensures ChallengesOk(Genesis.Issue(db, platform, now, key, id, instance).0.challenges, platform)
  {
    hide ChallengeOk, NormalizeKey, ChallengeText.Body, Genesis.NewChallenge, Genesis.TouchedForIssue, Genesis.StoredInstanceId;
    var k := NormalizeKey(key);
    var instanceId := Genesis.StoredInstanceId(Genesis.TouchedForIssue(db.genesis, now, instance)).GetOr("");
    if Genesis.NewChallenge(instanceId, id, now, k).Success? && platform.validKey(k) {
      IssuedRowOk(platform, instanceId, id, now, k, ChallengeText.Body(Genesis.NewChallenge(instanceId, id, now, k).value));
    }
  }

  lemma IssueKeepsWizard(db: Db, platform: Platform, now: int, key: string, id: string, instance: string)
    requires GenesisOk(db.genesis, db.names)
    ensures GenesisOk(Genesis.Issue(db, platform, now, key, id, instance).0.genesis, db.names)
    ensures Genesis.Issue(db, platform, now, key, id, instance).0.names == db.names
  {
    hide Strip, Lower, NormalizeKey, ChallengeText.Body, Genesis.NewChallenge, Genesis.StoredInstanceId, IsLowerHex;
  }

  lemma IssueKeeps(db: Db, platform: Platform, now: int, key: string, id: string, instance: string)
    requires StateOk(db, platform)
    ensures
      var db' := Genesis.Issue(db, platform, now, key, id, instance).0;
      StateOk(db', platform) && SameRegistry(db, db')
  {
    hide RegistryOk, DedupOk, ChallengesOk, GenesisOk, Genesis.Issue;
    IssueKeepsChallenges(db, platform, now, key, id, instance);
    IssueKeepsWizard(db, platform, now, key, id, instance);
    IssueAndVerifyFrame(db, platform, now, key, id, instance, "");
    RegistryFrame(db, Genesis.Issue(db, platform, now, key, id, instance).0);
  }

  lemma VerifyKeeps(db: Db, platform: Platform, now: int, id: string, signature: string)
    requires StateOk(db, platform)
    ensures
      var db' := Genesis.VerifyAndConsume(db, platform, now, id, signature).0;
      StateOk(db', platform) && SameRegistry(db, db')
  {
    hide RegistryOk, DedupOk, Strip, Lower, Genesis.SignatureOk;
    var db' := Genesis.VerifyAndConsume(db, platform, now, id, signature).0;
    RegistryFrame(db, db');
  }

  lemma RootLabelIsNormal(raw: string)
    ensures
      var r := Genesis.ValidateRootLabel(raw);
      r.Success? ==> r.value != "" && Strip(r.value) == r.value && Lower(r.value) == r.value
  {
    hide Trim;
    TrimIsTrimmed(raw, IsPySpace);
    LowerKeepsTrim(Strip(raw));
    LowerIdempotent(Strip(raw));
  }

  /** What an accepted completion carries: a normal label and the operator key of a consumed challenge. */
  lemma CheckedCompletion(db: Db, platform: Platform, now: int, a: Genesis.CompleteArgs)
    requires Genesis.CheckCompletion(db, platform, now, a).Success? && ChallengesOk(db.challenges, platform)
    ensures
      var c := Genesis.CheckCompletion(db, platform, now, a).value;
      var cid := Lower(Strip(a.challengeId));
      && !db.genesis.complete && cid in db.challenges
      && db.challenges[cid].consumedAt.Some? && c.subjectKey == db.challenges[cid].subjectKey
      && now - db.challenges[cid].consumedAt.value <= Genesis.COMPLETION_WINDOW
      && IsLowerHex(c.subjectKey, 64) && platform.validKey(c.subjectKey)
      && Strip(c.rootLabel) == c.rootLabel != "" && Lower(c.rootLabel) == c.rootLabel
      && (c.rootLabel in db.names ==> db.names[c.rootLabel].resolvedId == c.orgKey)
  {
    hide Genesis.ValidateRootLabel, Genesis.ValidateOrgKey, Genesis.ValidateDisplayName, Genesis.ValidateImage, IsLowerHex, Strip, Lower,
         NormalizeKey;
    RootLabelIsNormal(a.rootName);
    var cid := Lower(Strip(a.challengeId));
    assert ChallengeOk(db.challenges[cid], platform);
  }

  /** Completion either refuses before writing, or binds the label to the organisation key and sets every field. */
  lemma CompleteOutcome(db: Db, platform: Platform, now: int, a: Genesis.CompleteArgs)
    requires ChallengesOk(db.challenges, platform)
    ensures
      var (db', r) := Genesis.Complete(db, platform, now, a);
      match r
      case Failure(e) => db' == db && e == GenesisCompletionRejected
      case Success(c) =>
        && Genesis.CheckCompletion(db, platform, now, a) == Success(c)
        && db'.genesis.complete && db'.genesis.rootLabel == Some(c.rootLabel) && db'.genesis.bootstrapKey == Some(c.subjectKey)
        && db'.names == Genesis.BindRoot(db.names, c, now) && db' == db.(names := db'.names, genesis := db'.genesis)
        && c.rootLabel in db'.names && db'.names[c.rootLabel].resolvedId == c.orgKey
  {
    CompletionError(db, platform, now, a);
    if Genesis.CheckCompletion(db, platform, now, a).Success? { CheckedCompletion(db, platform, now, a); }
    hide Genesis.CheckCompletion, IsLowerHex, Strip, Lower, ChallengesOk;
  }

  lemma CompletionError(db: Db, platform: Platform, now: int, a: Genesis.CompleteArgs)
    ensures
      var r := Genesis.CheckCompletion(db, platform, now, a);
      r.Failure? ==> r.error == GenesisCompletionRejected
  {
    hide IsLowerHex, Strip, Lower, NormalizeKey, Genesis.RootBindingMatches, Genesis.AllowedMime;
  }

  lemma LegacyFrame(db: Db, db': Db)
    requires db'.modules == db.modules && db'.dials == db.dials && db'.coreRoute == db.coreRoute
    ensures LegacyInSync(db) ==> LegacyInSync(db')
  {
    hide ListByScope, RouteJson;
  }

  lemma NewNameKeeps(db: Db, db': Db, name: string, row: NameRow)
    requires RegistryOk(db) && row.routeJson.None? && row.metadataJson.None?
    requires db'.names == (if name in db.names then db.names else db.names[name := row])
    requires db'.modules == db.modules && db'.dials == db.dials && db'.coreRoute == db.coreRoute
    ensures RegistryOk(db') && WriteOnce(db, db') && (ModulesAreBound(db) ==> ModulesAreBound(db'))
  {
    hide TableOk, ModulesOk, ListByScope, RouteJson, Lower, LegacyInSync;
    LegacyFrame(db, db');
    if ModulesAreBound(db) {
      forall k | k in db'.modules ensures exists n :: n in db'.names && Lower(n) == k {
        var n :| n in db.names && Lower(n) == k;
        assert n in db'.names;
      }
    }
  }

  lemma CompleteKeeps(db: Db, platform: Platform, now: int, a: Genesis.CompleteArgs)
    requires StateOk(db, platform)
    ensures
      var db' := Genesis.Complete(db, platform, now, a).0;
      && StateOk(db', platform) && WriteOnce(db, db') && (ModulesAreBound(db) ==> ModulesAreBound(db'))
  {
    hide RegistryOk, DedupOk, ChallengesOk, WriteOnce, ModulesAreBound, Genesis.Complete, Strip, Lower, IsLowerHex, Genesis.CheckCompletion;
    CompleteOutcome(db, platform, now, a);
    var (db', r) := Genesis.Complete(db, platform, now, a);
    if r.Success? {
      CheckedCompletion(db, platform, now, a);
      NewNameKeeps(db, db', r.value.rootLabel, NameRow(r.value.orgKey, None, None, now));
    } else {
      RegistryFrame(db, db);
    }
  }

  lemma RemovedNameKeeps(db: Db, db': Db)
    requires RegistryOk(db) && (forall n :: n in db'.names ==> n in db.names && db'.names[n] == db.names[n])
    requires db'.modules == db.modules && db'.dials == db.dials && db'.coreRoute == db.coreRoute
    ensures RegistryOk(db')
  {
    hide TableOk, ModulesOk, ListByScope, RouteJson, TextOk;
  }

  lemma ResetKeeps(db: Db, platform: Platform, now: int, override: Option<string>)
    requires StateOk(db, platform)
    ensures StateOk(Genesis.Reset(db, now, override).0, platform)
  {
    hide RegistryOk, DedupOk, Genesis.ResetLabel, ChallengeOk, Genesis.SnapshotLabel, IsLowerHex;
    RemovedNameKeeps(db, Genesis.Reset(db, now, override).0);
  }

  /** In a state the invariant holds in, a reset never lacks the label: only a bad override of an incomplete wizard fails. */
  lemma ResetNeverLacksLabel(db: Db, now: int, override: Option<string>)
    requires GenesisOk(db.genesis, db.names)
    ensures
      var (db', r) := Genesis.Reset(db, now, override);
      && r != Failure(GenesisResetRejected)
      && (db.genesis.complete ==>
            r.Success? && db'.names == db.names - {db.genesis.rootLabel.value} && db.genesis.rootLabel.value in db.names)
      && (r.Success? ==>
            db'.challenges == map[] && !db'.genesis.complete && db'.genesis.rootLabel.None? && db'.genesis.bootstrapKey.None?)
  {
    hide Strip, Lower, IsLowerHex;
  }

  /** Every request and command keeps the invariant of reachable states. */
  lemma StepKeepsState(db: Db, ctx: Context, e: Event)
    requires StateOk(db, ctx.platform)
    ensures StateOk(Step(db, ctx, e).0, ctx.platform)
  {
    hide RegistryOk, DedupOk, ChallengesOk, GenesisOk, WriteOnce, ModulesAreBound, GenesisKept, Post;
    hide Genesis.Issue, Genesis.VerifyAndConsume, Genesis.Complete, Genesis.Reset, IssuedBody, CompletedBody;
    match e
    case Message(body, now, later) =>
      MessageKeeps(db, ctx, body, now, later);
      var db' := Step(db, ctx, e).0;
      RegistryFrame(db'.(dedup := db.dedup), db');
      KeptGenesisOk(db, db'.(dedup := db.dedup));
    case Challenge(now, key, id, instance) => IssueKeeps(db, ctx.platform, PyInt(now), key, id, instance);
    case Verify(now, id, signature) => VerifyKeeps(db, ctx.platform, PyInt(now), id, signature);
    case Complete(now, args) => CompleteKeeps(db, ctx.platform, PyInt(now), args);
    case ResetCommand(now, override) => ResetKeeps(db, ctx.platform, PyInt(now), override);
  }

  predicate IsReset(db: Db, ctx: Context, e: Event) { e.ResetCommand? && Step(db, ctx, e).1.Replied? }

  /** Every step except a successful reset is write-once on names and module identities. */
  lemma StepIsWriteOnce(db: Db, ctx: Context, e: Event)
    requires StateOk(db, ctx.platform) && !IsReset(db, ctx, e)
    ensures
      var db' := Step(db, ctx, e).0;
      WriteOnce(db, db') && (ModulesAreBound(db) ==> ModulesAreBound(db'))
  {
    hide RegistryOk, DedupOk, ChallengesOk, GenesisOk, WriteOnce, ModulesAreBound, GenesisKept, Post;
    hide Genesis.Issue, Genesis.VerifyAndConsume, Genesis.Complete, Genesis.Reset, IssuedBody, CompletedBody;
    RegistryFrame(db, db);
    match e
    case Message(body, now, later) =>
      MessageKeeps(db, ctx, body, now, later);
      var db' := Step(db, ctx, e).0;
      SameNamesWriteOnce(db, db'.(dedup := db.dedup), db');
    case Challenge(now, key, id, instance) =>
      IssueKeeps(db, ctx.platform, PyInt(now), key, id, instance);
      RegistryFrame(db, Step(db, ctx, e).0);
    case Verify(now, id, signature) =>
      VerifyKeeps(db, ctx.platform, PyInt(now), id, signature);
      RegistryFrame(db, Step(db, ctx, e).0);
    case Complete(now, args) => CompleteKeeps(db, ctx.platform, PyInt(now), args);
    case ResetCommand(now, override) =>
  }

  lemma SameNamesWriteOnce(db: Db, a: Db, b: Db)
    requires a.names == b.names && a.modules == b.modules && WriteOnce(db, a)
    ensures WriteOnce(db, b) && (ModulesAreBound(a) ==> ModulesAreBound(b))
  {
    hide Lower;
  }

  /** Once the wizard is complete, only a successful reset changes its outcome: every other step keeps the completion,
      the label, the operator key, the display name and the challenges. */
  predicate WizardFrozen(db: Db, db': Db) {
    && db'.genesis.complete && db'.genesis.rootLabel == db.genesis.rootLabel
    && db'.genesis.bootstrapKey == db.genesis.bootstrapKey && db'.genesis.displayName == db.genesis.displayName
    && db'.challenges == db.challenges
  }

  lemma CompleteRefuses(db: Db, platform: Platform, now: int, key: string, id: string, instance: string, signature: string)
    requires db.genesis.complete
    ensures Genesis.Issue(db, platform, now, key, id, instance) == (db, Failure(GenesisChallengeRejected))
    ensures Genesis.VerifyAndConsume(db, platform, now, id, signature) == (db, Failure(GenesisChallengeRejected))
  {
    hide Genesis.NewChallenge, Genesis.TouchedForIssue, Genesis.SignatureOk;
  }

  lemma CompleteRefusesAgain(db: Db, platform: Platform, now: int, a: Genesis.CompleteArgs)
    requires db.genesis.complete
    ensures Genesis.Complete(db, platform, now, a) == (db, Failure(GenesisCompletionRejected))
  {
    hide Genesis.BindRoot, IsLowerHex, Strip, Lower, NormalizeKey;
  }

  lemma CompletedWizardIsFrozen(db: Db, ctx: Context, e: Event)
    requires StateOk(db, ctx.platform) && db.genesis.complete && !IsReset(db, ctx, e)
    ensures WizardFrozen(db, Step(db, ctx, e).0)
    ensures !e.Message? && !e.ResetCommand? ==> Step(db, ctx, e).1.Refused?
  {
    hide RegistryOk, DedupOk, ChallengesOk, GenesisOk, WriteOnce, ModulesAreBound, Post, Genesis.Reset, Genesis.Issue,
         Genesis.VerifyAndConsume, Genesis.Complete, IssuedBody, CompletedBody;
    match e
    case Message(body, now, later) =>
      MessageKeeps(db, ctx, body, now, later);
    case Challenge(now, key, id, instance) => CompleteRefuses(db, ctx.platform, PyInt(now), key, id, instance, "");
    case Verify(now, id, signature) => CompleteRefuses(db, ctx.platform, PyInt(now), "", id, "", signature);
    case Complete(now, args) => CompleteRefusesAgain(db, ctx.platform, PyInt(now), args);
    case ResetCommand(now, override) =>
  }
}
