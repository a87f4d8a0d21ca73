// `POST /message` and the genesis endpoints: validate, deduplicate, dispatch, then
// commit or roll back the one connection.
module Core {
  import opened Wrappers
  import opened Errors
  import opened Text
  import opened Doubles
  import opened Json
  import opened Canonical
  import opened Signing
  import opened Database
  import opened Registry
  import opened ModuleState
  import Genesis
  import Branding
  import opened ChallengeText

  const PROTOCOL_VERSION := "2026.3.22.0"

  /** A request body: UTF-8 text, or bytes that are not UTF-8. */
  datatype Body = Utf8(text: string) | NotUtf8(byteLength: nat)

  function Utf8Length(s: string): nat {
    if s == "" then 0
    else
      var n := s[0] as int;
      (if n < 0x80 then 1 else if n < 0x800 then 2 else if n < 0x10000 then 3 else 4) + Utf8Length(s[1..])
  }

  datatype Context = Context(settings: Settings, platform: Platform)

  datatype Response = Replied(body: Json) | Refused(code: ErrorCode)

  // ---- checks that read nothing but the request ---------------------------------------

  function RequiredTexts(): seq<string> {
    ["protocol_version", "message_id", "target_module", "operation", "sender_id", "sender_key_type", "sender_public_key",
     "signature_algorithm"]
  }

  predicate HasTexts(env: JsonValue) {
    forall i | 0 <= i < 8 :: match Get(env, RequiredTexts()[i]) case Some(Str(s)) => s != "" case _ => false
  }

  function TextOf(env: JsonValue, key: string): string {
    match Get(env, key) case Some(Str(s)) => s case _ => ""
  }

  predicate IsCoreOperation(op: string) {
    op in {"get_protocol_version", "get_protocol_methods", "get_core_genesis_branding", "get_organization_logo",
           "get_user_profile_image", "get_user_description", "set_organization_logo", "set_user_profile_image",
           "set_user_description", "get_module_methods", "get_module_route", "get_module_state", "remove_module_route",
           "submit_module_route", "lookup_module", "register_name", "register_org", "resolve_name",
           "reverse_resolve_name", "heartbeat_update", "report_module_state"}
  }

  function CheckShape(env: JsonValue): Result<(), ErrorCode> {
    if !HasTexts(env) || Get(env, "timestamp").None? || Get(env, "expires_at").None? || Get(env, "payload").None?
       || Get(env, "payload_hash").None? || Get(env, "signature").None?
    then Failure(MalformedEnvelope)
    else if TextOf(env, "protocol_version") != PROTOCOL_VERSION then Failure(ModuleVersionUnsupported)
    else if TextOf(env, "target_module") != CORE_MODULE then Failure(TargetModuleMismatch)
    else if !IsCoreOperation(TextOf(env, "operation")) then Failure(UnsupportedOperation)
    else
      var _ :- CheckTargetVersion(Get(env, "target_module_version"));
      if TextOf(env, "sender_key_type") != "ed25519" || TextOf(env, "signature_algorithm") != "ed25519" then Failure(InvalidField)
      else if TextOf(env, "signature") == "" then Failure(SignatureMissing)
      else Success(())
  }

  function CheckTargetVersion(v: Option<Json>): Result<(), ErrorCode> {
    match v
    case None => Success(())
    case Some(Null) => Success(())
    case Some(Str(s)) => if s == PROTOCOL_VERSION then Success(()) else Failure(ModuleVersionUnsupported)
    case _ => Failure(InvalidField)
  }

  function CheckPayload(env: JsonValue, settings: Settings, platform: Platform): Result<JsonValue, ErrorCode> {
    match Field(env, "payload")
    case Some(Obj(ms)) =>
      var payload := Field(env, "payload").value;
      if Utf8Length(CanonicalJsonStr(payload)) > settings.maxPayloadBytes then Failure(PayloadTooLarge)
      else if TextOf(env, "payload_hash") == "" then Failure(InvalidField)
      else if TextOf(env, "payload_hash") != platform.sha256Hex(CanonicalJsonStr(payload)) then Failure(PayloadHashMismatch)
      else Success(payload)
    case _ => Failure(MalformedEnvelope)
  }

  /** `_parse_instant`: numbers as they are, otherwise an ISO 8601 text with an offset. */
  function Instant(v: Option<Json>, platform: Platform): Result<real, ErrorCode> {
    match v
    case Some(Int(n)) => Success(n as real)
    case Some(Float(x)) => Success(RealOf(x))
    case Some(Str(s)) =>
      var parsed := if Strip(s) == "" then None else platform.isoInstant(Strip(s));
      if parsed.None? then Failure(InvalidField) else Success(parsed.value)
    case _ => Failure(InvalidField)
  }

  function CheckWindow(ts: real, exp: real, settings: Settings, now: real): Result<(), ErrorCode> {
    if exp <= ts then Failure(InvalidExpiry)
    else if exp - ts > settings.maxExpiryWindow as real then Failure(ExpiryWindowTooLarge)
    else if now > exp then Failure(MessageExpired)
    else if ts > now + settings.futureSkew as real then Failure(TimestampFutureSkewExceeded)
    else Success(())
  }

  function CheckTimes(env: JsonValue, ctx: Context, now: real): Result<(), ErrorCode> {
    var ts :- Instant(Get(env, "timestamp"), ctx.platform);
    var exp :- Instant(Get(env, "expires_at"), ctx.platform);
    CheckWindow(ts, exp, ctx.settings, now)
  }

  function CheckSignature(env: JsonValue, platform: Platform): Result<(), ErrorCode> {
    var key, signature := TextOf(env, "sender_public_key"), TextOf(env, "signature");
    if !env.Obj? || !IsLowerHex(key, 64) || !IsLowerHex(signature, 128) then Failure(InvalidField)
    else if !platform.validKey(key) then Failure(PublicKeyInvalid)
    else if !platform.verifySignature(key, SigningText(env), signature) then Failure(SignatureInvalid)
    else Success(())
  }

  /** The body as an envelope object. */
  function ReadEnvelope(body: Body, settings: Settings): Result<JsonValue, ErrorCode> {
    var size := match body case Utf8(text) => Utf8Length(text) case NotUtf8(n) => n;
    if size > settings.maxBodyBytes then Failure(MessageTooLarge)
    else if body.NotUtf8? then Failure(MalformedJson)
    else match Load(body.text)
      case None => Failure(MalformedJson)
      case Some(v) => if v.Obj? then Success(v) else Failure(MalformedEnvelope)
  }

  function CheckEnvelope(env: JsonValue, ctx: Context, now: real): Result<Inbound, ErrorCode> {
    var _ :- CheckShape(env);
    var payload :- CheckPayload(env, ctx.settings, ctx.platform);
    var _ :- CheckTimes(env, ctx, now);
    var _ :- CheckSignature(env, ctx.platform);
    Success(Inbound(TextOf(env, "message_id"), TextOf(env, "operation"), TextOf(env, "sender_id"),
                    TextOf(env, "sender_public_key"), payload))
  }

  // ---- deduplication ----------------------------------------------------------------

  function Prune(dedup: map<string, DedupRow>, cutoff: int): map<string, DedupRow> {
    map k | k in dedup && dedup[k].firstSeenAt >= cutoff :: dedup[k]
  }

  const VALIDATED_MARK := "validated"

  datatype Admission = New | Replay

  /** Prune old rows, then record a new message id or recognise an identical request. */
  function Deduplicate(dedup: map<string, DedupRow>, settings: Settings, id: string, fingerprint: string, now: real)
    : Result<(map<string, DedupRow>, Admission), ErrorCode>
  {
    var kept := Prune(dedup, PyInt(now) - settings.replayWindow);
    if id !in kept then Success((kept[id := DedupRow(fingerprint, VALIDATED_MARK, PyInt(now))], New))
    else if kept[id].fingerprint != fingerprint then Failure(MessageIdConflict)
    else Success((kept, Replay))
  }

  datatype Admitted = Admitted(message: Inbound, fingerprint: string, signedText: string, admission: Admission)

  /** `validate_inbound_request`: the tables it leaves and whether the request is a replay. */
  function Validate(db: Db, ctx: Context, body: Body, now: real): Result<(Db, Admitted), ErrorCode> {
    var env :- ReadEnvelope(body, ctx.settings);
    var m :- CheckEnvelope(env, ctx, now);
    if !env.Obj? || !SenderIsBootstrap(ctx.settings, db.genesis, m.senderKey) then Failure(Unauthorized)
    else
      var fingerprint := ctx.platform.sha256Hex(SigningText(env));
      var (dedup, admission) :- Deduplicate(db.dedup, ctx.settings, m.messageId, fingerprint, now);
      Success((db.(dedup := dedup), Admitted(m, fingerprint, SigningText(env), admission)))
  }

  // ---- dispatch ---------------------------------------------------------------------

  function ProtocolVersionReply(m: Inbound): Result<Reply, ErrorCode> {
    if m.payload != Obj([]) then Failure(PayloadInvalid)
    else Success(Reply("PROTOCOL_VERSION_RETURNED", ObjectOf([Pair("protocol_version", JStr(PROTOCOL_VERSION))])))
  }

  /** Operations that only read the modelled tables. */
  function ReadOnly(db: Db, ctx: Context, m: Inbound, now: int): Result<Reply, ErrorCode> {
    if m.operation == "get_protocol_version" then ProtocolVersionReply(m)
    else if m.operation == "resolve_name" then ResolveName(db, m)
    else if m.operation == "reverse_resolve_name" then ReverseResolve(db, m)
    else if m.operation == "get_module_route" then GetModuleRoute(db, m)
    else if m.operation == "lookup_module" then LookupModule(db, m, PROTOCOL_VERSION, now)
    else if m.operation == "get_module_state" then GetState(db, m)
    else if m.operation == "get_user_profile_image" then Branding.GetUserImage(db, ctx.platform, m)
    else if m.operation == "get_user_description" then Branding.GetUserDescription(db, m)
    else ctx.platform.otherOperation(m, db)
  }

  function Dispatch(db: Db, ctx: Context, m: Inbound, now: int): (Db, Result<Reply, ErrorCode>) {
    if m.operation == "register_name" then RegisterName(db, ctx.settings, m, now)
    else if m.operation == "register_org" then RegisterOrg(db, ctx.settings, ctx.platform, m, now)
    else if m.operation == "submit_module_route" then SubmitRoute(db, ctx.settings, m, now)
    else if m.operation == "remove_module_route" then RemoveRoute(db, ctx.settings, m, now)
    else if m.operation == "report_module_state" then ReportState(db, ctx.platform, m, now)
    else if m.operation == "set_user_profile_image" then
      Branding.WriteUser(db, ctx.settings, m, Branding.ParseSetImage(m, ctx.platform, now))
    else if m.operation == "set_user_description" then
      Branding.WriteUser(db, ctx.settings, m, Branding.ParseSetDescription(m, now))
    else (db, ReadOnly(db, ctx, m, now))
  }

  /** `success_response_envelope` */
  function SuccessEnvelope(ctx: Context, m: Inbound, reply: Reply, later: real): JsonValue {
    ObjectOf([
      Pair("protocol_version", JStr(PROTOCOL_VERSION)), Pair("message_id", JStr(m.messageId + ":response")),
      Pair("correlation_id", JStr(m.messageId)), Pair("target_module", JStr(CORE_MODULE)),
      Pair("target_module_version", JStr(PROTOCOL_VERSION)), Pair("operation", JStr(m.operation + "_response")),
      Pair("timestamp", JStr(ctx.platform.stamp(later))), Pair("status", JStr("success")), Pair("code", JStr(reply.code)),
      Pair("payload", reply.payload), Pair("payload_hash", JStr(ctx.platform.sha256Hex(CanonicalJsonStr(reply.payload))))])
  }

  /** `parse_stored_response_envelope` */
  function ParseStored(summary: string): Option<JsonValue> {
    var s := Strip(summary);
    if s == "" || s[0] != '{' then None
    else match Load(s)
      case Some(Obj(ms)) => if Find(ms, "status").Some? then Load(s) else None
      case _ => None
  }

  // ---- POST /message ------------------------------------------------------------------

  /** The committed tables and the response after one request; `now` is validation's clock reading, `later` the handler's. */
  function Post(db: Db, ctx: Context, body: Body, now: real, later: real): (Db, Response) {
    match Validate(db, ctx, body, now)
    case Failure(e) => (db, Refused(e))
    case Success((admitted, a)) =>
      if a.admission.Replay? then Answer(db, admitted, a.message.messageId)
      else Execute(db, admitted, ctx, a.message, later)
  }

  /** A replay answers from the stored response. */
  function Answer(db: Db, admitted: Db, id: string): (Db, Response) {
    match (if id in admitted.dedup then ParseStored(admitted.dedup[id].resultSummary) else None)
    case None => (db, Refused(ReplayResponseUnavailable))
    case Some(v) => (admitted, Replied(v))
  }

  /** A new message runs its handler, stores the response and commits; or leaves `db`. */
  function Execute(db: Db, admitted: Db, ctx: Context, m: Inbound, later: real): (Db, Response) {
    var (done, r) := Dispatch(admitted, ctx, m, PyInt(later));
    match r
    case Failure(e) => (db, Refused(e))
    case Success(reply) =>
      var env := SuccessEnvelope(ctx, m, reply, later);
      (StoreSummary(done, m.messageId, Render(env, PythonUtf8)), Replied(env))
  }

  function StoreSummary(db: Db, id: string, summary: string): Db {
    if id in db.dedup then db.(dedup := db.dedup[id := db.dedup[id].(resultSummary := summary)]) else db
  }

  // ---- the genesis endpoints and the reset command ------------------------------------------

  function IssuedBody(i: Genesis.Issued): JsonValue {
    ObjectOf([Pair("challenge_id", JStr(i.challengeId)), Pair("challenge_body", JStr(i.body)),
              Pair("issued_at_unix", JInt(i.issuedAt)), Pair("expires_at_unix", JInt(i.expiresAt))])
  }

  function CompletedBody(c: Genesis.Completion): JsonValue {
    ObjectOf([Pair("genesis_complete", JBool(true)), Pair("root_organization_name", JStr(c.rootLabel)),
              Pair("root_organization_resolved_id", JStr(c.orgKey)), Pair("bootstrap_signing_pubkey_hex", JStr(c.subjectKey))])
  }

  datatype Event =
    | Message(body: Body, now: real, later: real)
    | Challenge(now: real, key: string, challengeId: string, freshInstance: Uuid)
    | Verify(now: real, challengeId: string, signature: string)
    | Complete(now: real, args: Genesis.CompleteArgs)
    | ResetCommand(now: real, override: Option<string>)

  function Settle(db: Db, done: Db, r: Result<JsonValue, ErrorCode>): (Db, Response) {
    match r
    case Failure(e) => (db, Refused(e))
    case Success(v) => (done, Replied(v))
  }

  function Mapped<T>(r: Result<T, ErrorCode>, show: T -> JsonValue): Result<JsonValue, ErrorCode> {
    match r case Failure(e) => Failure(e) case Success(x) => Success(show(x))
  }

  function Answering(r: Result<(), ErrorCode>, body: JsonValue): Result<JsonValue, ErrorCode> {
    match r case Failure(e) => Failure(e) case Success(_) => Success(body)
  }

  const VERIFIED_BODY: JsonValue := Obj([Member("verified", Bool(true))])
  const RESET_BODY: JsonValue := Obj([Member("reset", Bool(true))])

  /** One request or command: the committed tables after it, and its response. */
  function Step(db: Db, ctx: Context, e: Event): (Db, Response) {
    match e
    case Message(body, now, later) => Post(db, ctx, body, now, later)
    case Challenge(now, key, id, instance) =>
      if !ctx.settings.genesisAllowed then (db, Refused(GenesisOperationsNotAllowed))
      else
        var (done, r) := Genesis.Issue(db, ctx.platform, PyInt(now), key, id, instance);
        Settle(db, done, Mapped(r, IssuedBody))
    case Verify(now, id, signature) =>
      if !ctx.settings.genesisAllowed then (db, Refused(GenesisOperationsNotAllowed))
      else
        var (done, r) := Genesis.VerifyAndConsume(db, ctx.platform, PyInt(now), id, signature);
        Settle(db, done, Answering(r, VERIFIED_BODY))
    case Complete(now, args) =>
      if !ctx.settings.genesisAllowed then (db, Refused(GenesisOperationsNotAllowed))
      else
        var (done, r) := Genesis.Complete(db, ctx.platform, PyInt(now), args);
        Settle(db, done, Mapped(r, CompletedBody))
    case ResetCommand(now, override) =>
      if !ctx.settings.genesisAllowed || !ctx.settings.resetAllowed then (db, Refused(GenesisOperationsNotAllowed))
      else
        var (done, r) := Genesis.Reset(db, PyInt(now), override);
        Settle(db, done, Answering(r, RESET_BODY))
  }
}
