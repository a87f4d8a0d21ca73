// At-most-once execution is a timing property of four settings. A signed text runs at most once in
// every run exactly when the replay window covers the longest time a signed text stays acceptable.
module Replay {
  import opened Wrappers
  import opened Json
  import opened Canonical
  import opened Signing
  import opened Database
  import opened RegistryLaws
  import opened Core
  import opened StepLaws
  import opened Runs

  // ---- whole seconds ---------------------------------------------------------------

  lemma PyIntMonotone(x: real, y: real)
    requires x <= y
    ensures PyInt(x) <= PyInt(y)
  {
  }

  /** Truncation never stretches a span past a whole bound, on either side of zero. */
  lemma PyIntSpan(x: real, y: real, n: nat)
    requires y - x <= n as real
    ensures PyInt(y) - PyInt(x) <= n
  {
    if x < 0.0 <= y {
      assert y.Floor as real <= y && (-x).Floor as real <= -x;
    }
  }

  lemma PyIntOfInt(n: int)
    ensures PyInt(n as real) == n
  {
  }

  // ---- one execution in a run --------------------------------------------------------------

  /** An execution leaves a row with its fingerprint, its second, and a response that reads back as the one sent. */
  lemma ExecutionStoresRow(db: Db, ctx: Context, body: Body, now: real, later: real)
    requires RegistryOk(db) && DedupOk(db.dedup) && Executed(db, ctx, Message(body, now, later)).Some?
    ensures
      var e := Message(body, now, later);
      var x := Executed(db, ctx, e).value;
      var (db', response) := Step(db, ctx, e);
      var id := x.message.messageId;
      && id in db'.dedup && db'.dedup[id].firstSeenAt == PyInt(now)
      && db'.dedup[id].fingerprint == ctx.platform.sha256Hex(x.signedText)
      && response.Replied? && ParseStored(db'.dedup[id].resultSummary) == Some(response.body)
  {
    hide RegistryOk, DedupOk, Prune, Dispatch, Render, ParseStored, Presented, SuccessEnvelope, Executed, Step, WriteOnce, ModulesAreBound;
    PostOutcome(db, ctx, body, now, later);
    var x := Executed(db, ctx, Message(body, now, later)).value;
    var m := x.message;
    var row := DedupRow(ctx.platform.sha256Hex(x.signedText), VALIDATED_MARK, PyInt(now));
    var ready := db.(dedup := Prune(db.dedup, PyInt(now) - ctx.settings.replayWindow)[m.messageId := row]);
    RegistryFrame(db, ready);
    DispatchKeeps(ready, ctx, m, PyInt(later));
    StoredResponseParses(ctx, m, Dispatch(ready, ctx, m, PyInt(later)).1.value, later);
  }

  /** What an executed entry leaves in the dedup table. */
  lemma StoredAt(t: Trace, i: nat)
    requires IsRun(t) && i < |t.entries| && t.entries[i].executed
    ensures t.entries[i].presented.Some?
    ensures
      var n := t.entries[i];
      var x := n.presented.value;
      var id := x.message.messageId;
      && id in n.after.dedup && n.after.dedup[id].firstSeenAt == PyInt(n.event.now)
      && n.after.dedup[id].fingerprint == t.ctx.platform.sha256Hex(x.signedText)
      && n.response.Replied?
      && ParseStored(n.after.dedup[id].resultSummary) == Some(n.response.body)
  {
    hide RegistryOk, DedupOk, StateOk, ParseStored, Executed, PresentedBy, Step;
    EntryIsStep(t, i);
    ExecutedIsPresented(t, i);
    ReachableStateOk(t, i);
    StateParts(DbAt(t, i), t.ctx.platform);
    var e := t.entries[i].event;
    ExecutionStoresRow(DbAt(t, i), t.ctx, e.body, e.now, e.later);
  }

  /** Until the clock leaves the replay window of an execution, its row stays exactly as stored. */
  lemma {:induction false} RowStays(t: Trace, i: nat, k: nat)
    requires IsRun(t) && WellTimed(t) && i < k <= |t.entries| && t.entries[i].executed
    requires PyInt(t.entries[k - 1].event.now) - PyInt(t.entries[i].event.now) <= t.ctx.settings.replayWindow
    ensures t.entries[i].presented.Some?
    ensures
      var id := t.entries[i].presented.value.message.messageId;
      var first, later := t.entries[i].after.dedup, DbAt(t, k).dedup;
      id in first && id in later && later[id] == first[id] && first[id].firstSeenAt == PyInt(t.entries[i].event.now)
    decreases k
  {
    hide IsRun, RegistryOk, DedupOk, StateOk, ParseStored, Executed, PresentedBy, Step, PyInt;
    StoredAt(t, i);
    if k > i + 1 {
      PyIntMonotone(t.entries[k - 2].event.now, t.entries[k - 1].event.now);
      RowStays(t, i, k - 1);
      ReachableStateOk(t, k - 1);
      StateParts(DbAt(t, k - 1), t.ctx.platform);
      EntryIsStep(t, k - 1);
      FreshRowSurvives(DbAt(t, k - 1), t.ctx, t.entries[k - 1].event, t.entries[i].presented.value.message.messageId);
    }
  }

  /** A message is executed only when its id has no row inside the window. */
  lemma ExecutionWasUnseen(t: Trace, j: nat)
    requires IsRun(t) && j < |t.entries| && t.entries[j].executed
    ensures t.entries[j].presented.Some?
    ensures
      var id := t.entries[j].presented.value.message.messageId;
      var dedup := DbAt(t, j).dedup;
      id in dedup ==> dedup[id].firstSeenAt < PyInt(t.entries[j].event.now) - t.ctx.settings.replayWindow
  {
    hide RegistryOk, DedupOk, StateOk, Executed, PresentedBy, Step;
    EntryIsStep(t, j);
    ExecutedIsPresented(t, j);
    ReachableStateOk(t, j);
    StateParts(DbAt(t, j), t.ctx.platform);
    var e := t.entries[j].event;
    UnseenWhenExecuted(DbAt(t, j), t.ctx, e.body, e.now, e.later);
  }

  lemma UnseenWhenExecuted(db: Db, ctx: Context, body: Body, now: real, later: real)
    requires DedupOk(db.dedup) && Executed(db, ctx, Message(body, now, later)).Some?
    ensures
      var id := Executed(db, ctx, Message(body, now, later)).value.message.messageId;
      id in db.dedup ==> db.dedup[id].firstSeenAt < PyInt(now) - ctx.settings.replayWindow
  {
    hide DedupOk, Executed, Step, Presented, Prune, Dispatch, Render, SuccessEnvelope;
    PostOutcome(db, ctx, body, now, later);
    PruneKeepsRows(db.dedup, PyInt(now) - ctx.settings.replayWindow);
  }

  /** Two committed executions of one message id are more than the replay window of whole seconds apart. */
  lemma ExecutionsAreSpaced(t: Trace, i: nat, j: nat)
    requires IsRun(t) && WellTimed(t) && i < j < |t.entries|
    requires t.entries[i].executed && t.entries[i].presented.Some?
    requires t.entries[j].executed && t.entries[j].presented.Some?
    requires t.entries[i].presented.value.message.messageId == t.entries[j].presented.value.message.messageId
    ensures PyInt(t.entries[j].event.now) - PyInt(t.entries[i].event.now) > t.ctx.settings.replayWindow
  {
    hide IsRun, PyInt;
    ExecutionWasUnseen(t, j);
    if PyInt(t.entries[j].event.now) - PyInt(t.entries[i].event.now) <= t.ctx.settings.replayWindow {
      PyIntMonotone(t.entries[j - 1].event.now, t.entries[j].event.now);
      RowStays(t, i, j);
    }
  }

  /** A replay inside the window: the same signed text, still valid, gets the first response word for word, executes
      nothing, and changes nothing but expired dedup rows. */
  lemma ReplayReturnsFirstResponse(t: Trace, i: nat, j: nat)
    requires IsRun(t) && WellTimed(t) && i < j < |t.entries| && t.entries[i].executed
    requires PyInt(t.entries[j].event.now) - PyInt(t.entries[i].event.now) <= t.ctx.settings.replayWindow
    requires t.entries[i].presented.Some? && t.entries[j].presented.Some?
    requires t.entries[j].presented.value.signedText == t.entries[i].presented.value.signedText
    ensures t.entries[j].response == t.entries[i].response && !t.entries[j].executed
    ensures
      DbAt(t, j + 1)
      == DbAt(t, j).(dedup := Prune(DbAt(t, j).dedup, PyInt(t.entries[j].event.now) - t.ctx.settings.replayWindow))
  {
    hide RegistryOk, DedupOk, StateOk, Executed, PresentedBy, Step, ParseStored, Prune, PyInt;
    PyIntMonotone(t.entries[j - 1].event.now, t.entries[j].event.now);
    RowStays(t, i, j);
    StoredAt(t, i);
    SameTextInRun(t, i, j);
    if t.entries[j].executed { ExecutionsAreSpaced(t, i, j); }
    EntryIsStep(t, j);
    ReachableStateOk(t, j);
    StateParts(DbAt(t, j), t.ctx.platform);
    AnsweredAgain(DbAt(t, j), t.ctx, t.entries[j].event);
  }

  lemma AnsweredAgain(db: Db, ctx: Context, e: Event)
    requires DedupOk(db.dedup) && PresentedBy(db, ctx, e).Some?
    requires
      var x := PresentedBy(db, ctx, e).value;
      && x.message.messageId in db.dedup && db.dedup[x.message.messageId].fingerprint == ctx.platform.sha256Hex(x.signedText)
      && db.dedup[x.message.messageId].firstSeenAt >= PyInt(e.now) - ctx.settings.replayWindow
    ensures
      Step(db, ctx, e)
      == (db.(dedup := Prune(db.dedup, PyInt(e.now) - ctx.settings.replayWindow)),
          Replied(ParseStored(db.dedup[PresentedBy(db, ctx, e).value.message.messageId].resultSummary).value))
  {
    hide DedupOk, Step, Presented, Prune, ParseStored;
    ReplayIsAnswered(db, ctx, e.body, e.now, e.later);
  }

  // ---- how long a signed text stays acceptable --------------------------------------------------

  lemma InstantOfCanon(v: Json, w: Json, platform: Platform)
    requires Canon(v) == Canon(w)
    ensures Instant(Some(v), platform) == Instant(Some(w), platform)
  {
    hide SortMembers;
  }

  lemma PresentedChecks(db: Db, ctx: Context, body: Body, now: real) returns (env: JsonValue, ts: real, exp: real)
    requires Presented(db, ctx, body, now).Some?
    ensures env.Obj? && SigningText(env) == Presented(db, ctx, body, now).value.1
    ensures TextOf(env, "message_id") == Presented(db, ctx, body, now).value.0.messageId
    ensures Instant(Get(env, "timestamp"), ctx.platform) == Success(ts) && Instant(Get(env, "expires_at"), ctx.platform) == Success(exp)
    ensures ts - ctx.settings.futureSkew as real <= now <= exp <= ts + ctx.settings.maxExpiryWindow as real
  {
    hide ReadEnvelope, CheckShape, CheckPayload, CheckSignature, SigningText, TextOf, Instant, SenderIsBootstrap;
    env := ReadEnvelope(body, ctx.settings).value;
    ts := Instant(Get(env, "timestamp"), ctx.platform).value;
    exp := Instant(Get(env, "expires_at"), ctx.platform).value;
  }

  lemma InstantNeedsValue(v: Option<Json>, platform: Platform)
    ensures Instant(v, platform).Success? ==> v.Some?
  {
  }

  /** The signed text fixes the message id and both instants, so two acceptances of one text are at most the expiry
      window plus the skew apart. */
  lemma SameTextSameRequest(db: Db, db': Db, ctx: Context, body: Body, now: real, body': Body, now': real)
    requires Presented(db, ctx, body, now).Some? && Presented(db', ctx, body', now').Some?
    requires Presented(db, ctx, body, now).value.1 == Presented(db', ctx, body', now').value.1
    ensures Presented(db, ctx, body, now).value.0.messageId == Presented(db', ctx, body', now').value.0.messageId
    ensures now' - now <= (ctx.settings.maxExpiryWindow + ctx.settings.futureSkew) as real
  {
    hide Presented, SigningText, Instant, Get, Canon, WellFormed;
    var a, ts, exp := PresentedChecks(db, ctx, body, now);
    var b, ts', exp' := PresentedChecks(db', ctx, body', now');
    SigningTextDeterminesMembers(a, b, "message_id");
    SigningTextDeterminesMembers(a, b, "timestamp");
    SigningTextDeterminesMembers(a, b, "expires_at");
    InstantNeedsValue(Get(a, "timestamp"), ctx.platform);
    InstantNeedsValue(Get(a, "expires_at"), ctx.platform);
    InstantOfCanon(Get(a, "timestamp").value, Get(b, "timestamp").value, ctx.platform);
    InstantOfCanon(Get(a, "expires_at").value, Get(b, "expires_at").value, ctx.platform);
    TextOfCanon(a, b, "message_id");
  }

  lemma TextOfCanon(a: JsonValue, b: JsonValue, key: string)
    requires Get(a, key).Some? == Get(b, key).Some?
    requires Get(a, key).Some? ==> Canon(Get(a, key).value) == Canon(Get(b, key).value)
    ensures TextOf(a, key) == TextOf(b, key)
  {
    hide SortMembers, Get;
  }

  /** In a run, two presentations of one signed text carry one message id and are at most window plus skew apart. */
  lemma SameTextInRun(t: Trace, i: nat, j: nat)
    requires IsRun(t) && i < |t.entries| && j < |t.entries|
    requires t.entries[i].presented.Some? && t.entries[j].presented.Some?
    requires t.entries[j].presented.value.signedText == t.entries[i].presented.value.signedText
    ensures t.entries[i].presented.value.message.messageId == t.entries[j].presented.value.message.messageId
    ensures t.entries[j].event.now - t.entries[i].event.now
            <= (t.ctx.settings.maxExpiryWindow + t.ctx.settings.futureSkew) as real
  {
    hide Step, Executed, Presented;
    EntryIsStep(t, i);
    EntryIsStep(t, j);
    var e, f := t.entries[i].event, t.entries[j].event;
    SameTextSameRequest(DbAt(t, i), DbAt(t, j), t.ctx, e.body, e.now, f.body, f.now);
  }

  lemma PresentedIsSigned(db: Db, ctx: Context, body: Body, now: real)
    requires Presented(db, ctx, body, now).Some?
    ensures
      var (m, text) := Presented(db, ctx, body, now).value;
      && SenderIsBootstrap(ctx.settings, db.genesis, m.senderKey)
      && IsLowerHex(m.senderKey, 64) && ctx.platform.validKey(m.senderKey)
      && (exists signature :: IsLowerHex(signature, 128) && ctx.platform.verifySignature(m.senderKey, text, signature))
  {
    hide CheckShape, CheckPayload, CheckTimes, SigningText, TextOf, IsLowerHex, SenderIsBootstrap;
    var env := ReadEnvelope(body, ctx.settings).value;
    hide ReadEnvelope;
    assert ctx.platform.verifySignature(TextOf(env, "sender_public_key"), SigningText(env), TextOf(env, "signature"));
  }

  /** Nothing runs unsigned: every presented message, so every executed one, carries a signature of its sender over its
      signed text, and the sender is an effective bootstrap key in the state it came to. */
  lemma ExecutedWasSigned(t: Trace, i: nat)
    requires IsRun(t) && i < |t.entries| && t.entries[i].executed
    ensures t.entries[i].presented.Some?
    ensures
      var x := t.entries[i].presented.value;
      && SenderIsBootstrap(t.ctx.settings, DbAt(t, i).genesis, x.message.senderKey)
      && t.ctx.platform.validKey(x.message.senderKey)
      && (exists signature :: IsLowerHex(signature, 128)
            && t.ctx.platform.verifySignature(x.message.senderKey, x.signedText, signature))
  {
    hide Step, Executed, Presented, SenderIsBootstrap, IsLowerHex;
    EntryIsStep(t, i);
    ExecutedIsPresented(t, i);
    PresentedIsSigned(DbAt(t, i), t.ctx, t.entries[i].event.body, t.entries[i].event.now);
  }

  // ---- at most once, exactly ------------------------------------------------------------------

  /** Events `i` and `j` execute the same signed text. */
  predicate RunsTwice(t: Trace, i: nat, j: nat) {
    && i < j < |t.entries| && t.entries[i].executed && t.entries[j].executed
    && t.entries[i].presented.Some? && t.entries[j].presented.Some?
    && t.entries[i].presented.value.signedText == t.entries[j].presented.value.signedText
  }

  ghost predicate AtMostOnce(ctx: Context) {
    forall t: Trace, i: nat, j: nat | t.ctx == ctx && IsRun(t) && WellTimed(t) :: !RunsTwice(t, i, j)
  }

  /** With a long enough replay window no signed text ever runs twice. */
  lemma LongWindowMeansAtMostOnce(t: Trace, i: nat, j: nat)
    requires IsRun(t) && WellTimed(t)
    requires t.ctx.settings.replayWindow >= t.ctx.settings.maxExpiryWindow + t.ctx.settings.futureSkew
    ensures !RunsTwice(t, i, j)
  {
    hide IsRun, PyInt;
    if RunsTwice(t, i, j) {
      SameTextInRun(t, i, j);
      PyIntSpan(t.entries[i].event.now, t.entries[j].event.now, t.ctx.settings.maxExpiryWindow + t.ctx.settings.futureSkew);
      ExecutionsAreSpaced(t, i, j);
    }
  }
}
