// The application object: one lock-protected connection, and each request as the
// statements it runs on the working copy, ending in a commit or a rollback.
module Server {
  import opened Wrappers
  import opened Errors
  import opened Json
  import opened Signing
  import opened Database
  import opened Registry
  import opened Handlers
  import opened ModuleState
  import opened Core
  import opened ChallengeText
  import Genesis
  import Branding

  /** `_apply_deduplication`: prunes first, also when the message is then refused. */
  method ApplyDeduplication(conn: Connection, settings: Settings, id: string, fingerprint: string, now: real)
    returns (r: Result<Admission, ErrorCode>)
    modifies conn`working
    ensures
      match Deduplicate(old(conn.working).dedup, settings, id, fingerprint, now)
      case Failure(e) => r == Failure(e)
      case Success((dedup, admission)) => r == Success(admission) && conn.working == old(conn.working).(dedup := dedup)
  {
    hide Prune;
    conn.working := conn.working.(dedup := Prune(conn.working.dedup, PyInt(now) - settings.replayWindow));
    if id !in conn.working.dedup {
      var row := DedupRow(fingerprint, VALIDATED_MARK, PyInt(now));
      conn.working := conn.working.(dedup := conn.working.dedup[id := row]);
      return Success(New);
    }
    if conn.working.dedup[id].fingerprint != fingerprint { return Failure(MessageIdConflict); }
    return Success(Replay);
  }

  method ValidateInboundRequest(conn: Connection, ctx: Context, body: Body, now: real) returns (r: Result<Admitted, ErrorCode>)
    modifies conn`working
    ensures
      match Validate(old(conn.working), ctx, body, now)
      case Failure(e) => r == Failure(e)
      case Success((db, admitted)) => r == Success(admitted) && conn.working == db
  {
    hide ReadEnvelope, CheckEnvelope, SenderIsBootstrap, Deduplicate, SigningText;
    var env :- ReadEnvelope(body, ctx.settings);
    var m :- CheckEnvelope(env, ctx, now);
    if !env.Obj? || !SenderIsBootstrap(ctx.settings, conn.working.genesis, m.senderKey) { return Failure(Unauthorized); }
    var text := SigningText(env);
    var fingerprint := ctx.platform.sha256Hex(text);
    var admission :- ApplyDeduplication(conn, ctx.settings, m.messageId, fingerprint, now);
    return Success(Admitted(m, fingerprint, text, admission));
  }

  method DispatchOperation(conn: Connection, ctx: Context, m: Inbound, now: int) returns (r: Result<Reply, ErrorCode>)
    modifies conn`working
    ensures (conn.working, r) == Dispatch(old(conn.working), ctx, m, now)
  {
    hide RegisterName, RegisterOrg, SubmitRoute, RemoveRoute, ReportState, ReadOnly;
    hide Branding.WriteUser, Branding.ParseSetImage, Branding.ParseSetDescription;
    match m.operation {
      case "register_name" => r := HandleRegisterName(conn, ctx.settings, m, now);
      case "register_org" => r := HandleRegisterOrg(conn, ctx.settings, ctx.platform, m, now);
      case "submit_module_route" => r := HandleSubmitRoute(conn, ctx.settings, m, now);
      case "remove_module_route" => r := HandleRemoveRoute(conn, ctx.settings, m, now);
      case "report_module_state" => r := HandleReportState(conn, ctx.platform, m, now);
      case "set_user_profile_image" =>
        r := Branding.HandleWriteUser(conn, ctx.settings, m, Branding.ParseSetImage(m, ctx.platform, now));
      case "set_user_description" =>
        r := Branding.HandleWriteUser(conn, ctx.settings, m, Branding.ParseSetDescription(m, now));
      case _ => r := ReadOnly(conn.working, ctx, m, now);
    }
  }

  /** False when no row carries the id. */
  method UpdateResultSummary(conn: Connection, id: string, summary: string) returns (updated: bool)
    modifies conn`working
    ensures conn.working == StoreSummary(old(conn.working), id, summary)
    ensures updated <==> id in old(conn.working).dedup
  {
    updated := id in conn.working.dedup;
    if updated {
      var row := conn.working.dedup[id].(resultSummary := summary);
      conn.working := conn.working.(dedup := conn.working.dedup[id := row]);
    }
  }

  class App {
    const ctx: Context
    const conn: Connection

    constructor (ctx: Context, conn: Connection)
      ensures this.ctx == ctx && this.conn == conn
    {
      this.ctx := ctx;
      this.conn := conn;
    }

    /** Between requests nothing is pending on the connection. */
    predicate Idle()
      reads this, conn
    {
      conn.working == conn.committed
    }

    method PostMessage(body: Body, now: real, later: real) returns (response: Response)
      requires Idle()
      modifies conn
      ensures Idle()
      ensures (conn.committed, response) == Post(old(conn.committed), ctx, body, now, later)
    {
      hide Validate, Dispatch, SuccessEnvelope, Render, ParseStored, StoreSummary;
      var validated := ValidateInboundRequest(conn, ctx, body, now);
      if validated.Failure? {
        conn.Rollback();
        return Refused(validated.error);
      }
      var a := validated.value;
      var id := a.message.messageId;
      if a.admission.Replay? {
        var cached := if id in conn.working.dedup then ParseStored(conn.working.dedup[id].resultSummary) else None;
        if cached.Some? {
          conn.Commit();
          return Replied(cached.value);
        }
        conn.Rollback();
        return Refused(ReplayResponseUnavailable);
      }
      var outcome := DispatchOperation(conn, ctx, a.message, PyInt(later));
      if outcome.Failure? {
        conn.Rollback();
        return Refused(outcome.error);
      }
      var env := SuccessEnvelope(ctx, a.message, outcome.value, later);
      var stored := UpdateResultSummary(conn, id, Render(env, PythonUtf8));
      conn.Commit();
      return Replied(env);
    }

    /** Commit a successful result, roll back a failed one. */
    method Finish(r: Result<JsonValue, ErrorCode>) returns (response: Response)
      modifies conn
      ensures Idle()
      ensures (conn.committed, response) == Settle(old(conn.committed), old(conn.working), r)
    {
      if r.Failure? {
        conn.Rollback();
        return Refused(r.error);
      }
      conn.Commit();
      return Replied(r.value);
    }

    method PostGenesisChallenge(now: real, key: string, challengeId: string, freshInstance: Uuid) returns (response: Response)
      requires Idle()
      modifies conn
      ensures Idle()
      ensures (conn.committed, response) == Step(old(conn.committed), ctx, Event.Challenge(now, key, challengeId, freshInstance))
    {
      hide Genesis.Issue, Settle, IssuedBody, Post;
      if !ctx.settings.genesisAllowed { return Refused(GenesisOperationsNotAllowed); }
      var r := Genesis.IssueChallenge(conn, ctx.platform, PyInt(now), key, challengeId, freshInstance);
      response := Finish(Mapped(r, IssuedBody));
    }

    method PostGenesisVerify(now: real, challengeId: string, signature: string) returns (response: Response)
      requires Idle()
      modifies conn
      ensures Idle()
      ensures (conn.committed, response) == Step(old(conn.committed), ctx, Verify(now, challengeId, signature))
    {
      hide Genesis.VerifyAndConsume, Settle, Post;
      if !ctx.settings.genesisAllowed { return Refused(GenesisOperationsNotAllowed); }
      var r := Genesis.VerifyChallenge(conn, ctx.platform, PyInt(now), challengeId, signature);
      response := Finish(Answering(r, VERIFIED_BODY));
    }

    method PostGenesisComplete(now: real, args: Genesis.CompleteArgs) returns (response: Response)
      requires Idle()
      modifies conn
      ensures Idle()
      ensures (conn.committed, response) == Step(old(conn.committed), ctx, Complete(now, args))
    {
      hide Genesis.Complete, Settle, CompletedBody, Post;
      if !ctx.settings.genesisAllowed { return Refused(GenesisOperationsNotAllowed); }
      var r := Genesis.CompleteGenesis(conn, ctx.platform, PyInt(now), args);
      response := Finish(Mapped(r, CompletedBody));
    }

    method RunReset(now: real, override: Option<string>) returns (response: Response)
      requires Idle()
      modifies conn
      ensures Idle()
      ensures (conn.committed, response) == Step(old(conn.committed), ctx, ResetCommand(now, override))
    {
      hide Genesis.Reset, Settle, Post;
      if !ctx.settings.genesisAllowed || !ctx.settings.resetAllowed { return Refused(GenesisOperationsNotAllowed); }
      var r := Genesis.ResetGenesisState(conn, PyInt(now), override);
      response := Finish(Answering(r, RESET_BODY));
    }
  }
}
