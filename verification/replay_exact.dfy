// The other half of the at-most-once theorem: with a shorter replay window, one signed text runs twice.
module ReplayExact {
  import opened Wrappers
  import opened Json
  import opened Canonical
  import opened Signing
  import opened HonestRequests
  import opened Database
  import opened Registry
  import opened Core
  import opened StepLaws
  import opened Runs
  import opened Replay

  /** An honest sender: one request to read the protocol version, under its own message id and signed with its own
      key, to be sent for the first time at `start`. */
  datatype Sender = Sender(key: string, sig: string, messageId: string, start: real)

  /** The request is dated as far ahead of `start` as the skew allows ... */
  function DatedAt(s: Settings, q: Sender): int { PyInt(q.start) + s.futureSkew }

  /** ... and expires one full window later. */
  function ExpiresAt(s: Settings, q: Sender): int { DatedAt(s, q) + s.maxExpiryWindow }

  function VersionRequest(s: Settings, q: Sender): SignOptions {
    SignOptions(PROTOCOL_VERSION, q.messageId, "get_protocol_version", "s", q.key, JInt(DatedAt(s, q)), JInt(ExpiresAt(s, q)), Obj([]))
  }

  function RequestText(ctx: Context, q: Sender): string {
    UnsignedText(VersionRequest(ctx.settings, q), ctx.platform.sha256Hex("{}"))
  }

  function RequestBody(ctx: Context, q: Sender): string {
    SignedBody(UnsignedMembers(VersionRequest(ctx.settings, q), ctx.platform.sha256Hex("{}")), q.sig, PythonUtf8)
  }

  /** What the server makes of the request. */
  function RequestMessage(q: Sender): Inbound { Inbound(q.messageId, "get_protocol_version", "s", q.key, Obj([])) }

  /** The signature is valid over the request, and the request is within the size limits. */
  predicate CanSend(ctx: Context, q: Sender) {
    && q.start >= 0.0 && q.messageId != ""
    && IsLowerHex(q.key, 64) && ctx.platform.validKey(q.key)
    && IsLowerHex(q.sig, 128) && ctx.platform.verifySignature(q.key, RequestText(ctx, q), q.sig)
    && ctx.platform.sha256Hex("{}") != ""
    && Utf8Length(RequestBody(ctx, q)) <= ctx.settings.maxBodyBytes && 2 <= ctx.settings.maxPayloadBytes
  }

  /** The clock readings at which the request is acceptable. */
  predicate IsSendTime(s: Settings, q: Sender, now: real) { q.start <= now <= ExpiresAt(s, q) as real }

  lemma EmptyPayloadText()
    ensures CanonicalJsonStr(Obj([])) == "{}" && Utf8Length("{}") == 2 && Canon(Obj([])) == Obj([])
  {
    assert Utf8Length("}") == 1 + Utf8Length("");
  }

  lemma RequestIsGood(ctx: Context, q: Sender, now: real)
    requires CanSend(ctx, q) && ctx.settings.maxExpiryWindow > 0 && IsSendTime(ctx.settings, q, now)
    ensures
      var o := VersionRequest(ctx.settings, q);
      GoodFields(ctx, o) && GoodDates(ctx, o, now) && MessageOf(o) == RequestMessage(q) && o.publicKeyHex == q.key
  {
    EmptyPayloadText();
    hide IsLowerHex, RequestText, RequestBody, CanonicalJsonStr, Utf8Length, Canon;
  }

  /** The request passes every check from `start` to its expiry, in any state where its key is an effective bootstrap key. */
  lemma RequestIsPresented(db: Db, ctx: Context, q: Sender, now: real)
    requires CanSend(ctx, q) && ctx.settings.maxExpiryWindow > 0 && SenderIsBootstrap(ctx.settings, db.genesis, q.key)
    requires IsSendTime(ctx.settings, q, now)
    ensures Presented(db, ctx, Utf8(RequestBody(ctx, q)), now) == Some((RequestMessage(q), RequestText(ctx, q)))
  {
    hide Presented, UnsignedMembers, UnsignedText, GoodFields, GoodDates, SenderIsBootstrap, IsLowerHex, Utf8Length, SignedBody, IsSendTime,
         MessageOf, CanonicalJsonStr, Canon;
    var o := VersionRequest(ctx.settings, q);
    EmptyPayloadText();
    RequestIsGood(ctx, q, now);
    HonestRequests.RequestIsPresented(db, ctx, o, ctx.platform.sha256Hex("{}"), q.sig, PythonUtf8, now);
  }

  /** The handler answers and leaves the tables alone. */
  lemma RequestIsAnswered(db: Db, ctx: Context, q: Sender, now: int)
    ensures var (db', r) := Dispatch(db, ctx, RequestMessage(q), now); db' == db && r.Success?
  {
    hide RegisterName, RegisterOrg, SubmitRoute, RemoveRoute, ResolveName, ReverseResolve, GetModuleRoute, LookupModule, ObjectOf;
  }

  /** When its id is not in the window, the request is admitted as new. */
  lemma RequestIsNew(db: Db, ctx: Context, q: Sender, now: real)
    requires CanSend(ctx, q) && ctx.settings.maxExpiryWindow > 0 && SenderIsBootstrap(ctx.settings, db.genesis, q.key)
    requires IsSendTime(ctx.settings, q, now)
    requires q.messageId in db.dedup ==> db.dedup[q.messageId].firstSeenAt < PyInt(now) - ctx.settings.replayWindow
    ensures
      var r := Validate(db, ctx, Utf8(RequestBody(ctx, q)), now);
      && r.Success? && r.value.1.message == RequestMessage(q) && r.value.1.signedText == RequestText(ctx, q) && r.value.1.admission.New?
      && r.value.0.genesis == db.genesis
      && q.messageId in r.value.0.dedup && r.value.0.dedup[q.messageId].firstSeenAt == PyInt(now)
  {
    hide Presented, Prune, RequestBody, RequestText, CanSend, SenderIsBootstrap, IsSendTime, PyInt, Validate;
    RequestIsPresented(db, ctx, q, now);
    ValidateIsPresented(db, ctx, Utf8(RequestBody(ctx, q)), now);
    PruneKeepsRows(db.dedup, PyInt(now) - ctx.settings.replayWindow);
  }

  /** Then it runs, and changes only the dedup table. */
  lemma RequestRuns(db: Db, ctx: Context, q: Sender, now: real)
    requires CanSend(ctx, q) && ctx.settings.maxExpiryWindow > 0 && SenderIsBootstrap(ctx.settings, db.genesis, q.key)
    requires IsSendTime(ctx.settings, q, now)
    requires q.messageId in db.dedup ==> db.dedup[q.messageId].firstSeenAt < PyInt(now) - ctx.settings.replayWindow
    ensures
      var e := Message(Utf8(RequestBody(ctx, q)), now, now);
      var x := Executed(db, ctx, e);
      var db' := Step(db, ctx, e).0;
      && x.Some? && x.value.signedText == RequestText(ctx, q)
      && db'.genesis == db.genesis && q.messageId in db'.dedup && db'.dedup[q.messageId].firstSeenAt == PyInt(now)
  {
    hide Validate, Dispatch, RequestBody, RequestText, CanSend, SenderIsBootstrap, IsSendTime, PyInt, SuccessEnvelope, Render,
         RequestMessage;
    RequestIsNew(db, ctx, q, now);
    RequestIsAnswered(Validate(db, ctx, Utf8(RequestBody(ctx, q)), now).value.0, ctx, q, PyInt(now));
    MessageOfRequest(q);
  }

  lemma MessageOfRequest(q: Sender)
    ensures RequestMessage(q).messageId == q.messageId
  {
  }

  /** The request sent as early and as late as its dates allow. */
  function TwiceSent(ctx: Context, q: Sender): seq<Event> {
    var body, last := Utf8(RequestBody(ctx, q)), ExpiresAt(ctx.settings, q) as real;
    [Message(body, q.start, q.start), Message(body, last, last)]
  }

  /** An entry whose event sends the request to a state that has not seen it in the window. */
  lemma EntryRunsRequest(t: Trace, i: nat, q: Sender, now: real)
    requires IsRun(t) && i < |t.entries| && CanSend(t.ctx, q) && t.ctx.settings.maxExpiryWindow > 0
    requires t.entries[i].event == Message(Utf8(RequestBody(t.ctx, q)), now, now) && IsSendTime(t.ctx.settings, q, now)
    requires SenderIsBootstrap(t.ctx.settings, DbAt(t, i).genesis, q.key)
    requires q.messageId in DbAt(t, i).dedup ==>
               DbAt(t, i).dedup[q.messageId].firstSeenAt < PyInt(now) - t.ctx.settings.replayWindow
    ensures
      var n := t.entries[i];
      && n.executed && n.presented.Some? && n.presented.value.signedText == RequestText(t.ctx, q)
      && n.after.genesis == DbAt(t, i).genesis
      && q.messageId in n.after.dedup && n.after.dedup[q.messageId].firstSeenAt == PyInt(now)
  {
    hide RequestBody, RequestText, CanSend, SenderIsBootstrap, Executed, Step, Presented, IsSendTime, PyInt;
    EntryIsStep(t, i);
    RequestRuns(DbAt(t, i), t.ctx, q, now);
    RequestIsPresented(DbAt(t, i), t.ctx, q, now);
  }

  /** After the run of `events` the sender's key is an effective bootstrap key, its id is not in the window, and the clock
      has not passed `start`. */
  predicate CanStartAfter(ctx: Context, events: seq<Event>, q: Sender) {
    var t := Play(ctx, events);
    var db := DbAt(t, |t.entries|);
    && CanSend(ctx, q) && WellTimed(t) && (forall i | 0 <= i < |events| :: events[i].now <= q.start)
    && SenderIsBootstrap(ctx.settings, db.genesis, q.key)
    && (q.messageId in db.dedup ==> db.dedup[q.messageId].firstSeenAt < PyInt(q.start) - ctx.settings.replayWindow)
  }

  lemma PlayPrefix(ctx: Context, events: seq<Event>, more: seq<Event>)
    ensures
      var t, u := Play(ctx, events), Play(ctx, events + more);
      && |t.entries| == |events| && |u.entries| == |events + more| && t.entries <= u.entries
  {
    hide Play, Step, PresentedBy, Executed;
    PlayIsRun(ctx, events);
    PlayIsRun(ctx, events + more);
    RunsAreUnique(Play(ctx, events), Play(ctx, events + more), |events|);
  }

  lemma SpanOfTwice(s: Settings, q: Sender)
    requires q.start >= 0.0
    ensures q.start <= ExpiresAt(s, q) as real || s.futureSkew + s.maxExpiryWindow == 0
    ensures PyInt(ExpiresAt(s, q) as real) - PyInt(q.start) == s.futureSkew + s.maxExpiryWindow
  {
    PyIntOfInt(ExpiresAt(s, q));
  }

  /** After any run that leaves the sender able to start, at any clock reading: sent as early and as late as its dates
      allow, one signed request runs twice. */
  lemma ShortWindowRunsTwice(ctx: Context, events: seq<Event>, q: Sender)
    requires CanStartAfter(ctx, events, q) && ctx.settings.maxExpiryWindow > 0
    requires ctx.settings.replayWindow < ctx.settings.maxExpiryWindow + ctx.settings.futureSkew
    ensures
      var t := Play(ctx, events + TwiceSent(ctx, q));
      t.ctx == ctx && IsRun(t) && WellTimed(t) && RunsTwice(t, |events|, |events| + 1)
  {
    hide Play, RequestBody, RequestText, CanSend, SenderIsBootstrap, Executed, PresentedBy, Step, IsRun, PyInt, ExpiresAt;
    var n, all := |events|, events + TwiceSent(ctx, q);
    var t := Play(ctx, all);
    PlayIsRun(ctx, events);
    PlayIsRun(ctx, all);
    PlayPrefix(ctx, events, TwiceSent(ctx, q));
    SenderStarts(ctx, q);
    SpanOfTwice(ctx.settings, q);
    assert t.entries[n].event == TwiceSent(ctx, q)[0] && t.entries[n + 1].event == TwiceSent(ctx, q)[1];
    TwiceIsTimed(ctx, events, q);
    assert DbAt(t, n) == DbAt(Play(ctx, events), n);
    EntryRunsRequest(t, n, q, q.start);
    assert DbAt(t, n + 1) == t.entries[n].after;
    EntryRunsRequest(t, n + 1, q, ExpiresAt(ctx.settings, q) as real);
  }

  lemma SenderStarts(ctx: Context, q: Sender)
    requires CanSend(ctx, q)
    ensures q.start >= 0.0
  {
    hide IsLowerHex, RequestText, RequestBody;
  }

  lemma TwiceIsTimed(ctx: Context, events: seq<Event>, q: Sender)
    requires CanStartAfter(ctx, events, q) && ctx.settings.maxExpiryWindow > 0
    ensures WellTimed(Play(ctx, events + TwiceSent(ctx, q)))
  {
    hide Play, RequestBody, RequestText, CanSend, SenderIsBootstrap, Executed, PresentedBy, Step, IsRun, PyInt, ExpiresAt;
    var all := events + TwiceSent(ctx, q);
    PlayIsRun(ctx, events);
    PlayIsRun(ctx, all);
    PlayPrefix(ctx, events, TwiceSent(ctx, q));
    SenderStarts(ctx, q);
    SpanOfTwice(ctx.settings, q);
  }

  /** No message at all is accepted when the expiry window is zero. */
  lemma ZeroWindowRefuses(db: Db, ctx: Context, e: Event)
    requires ctx.settings.maxExpiryWindow == 0
    ensures Executed(db, ctx, e).None?
  {
    hide ReadEnvelope, CheckShape, CheckPayload, CheckSignature, Dispatch, Instant, SenderIsBootstrap, Deduplicate, SigningText;
  }

  lemma NothingRuns(t: Trace, i: nat)
    requires IsRun(t) && i < |t.entries| && t.ctx.settings.maxExpiryWindow == 0
    ensures !t.entries[i].executed
  {
    hide Executed, PresentedBy, Step;
    EntryIsStep(t, i);
    ZeroWindowRefuses(DbAt(t, i), t.ctx, t.entries[i].event);
  }

  /** A signed text runs at most once in every run exactly when nothing can be accepted at all, or the replay window
      covers the expiry window plus the clock skew; any sender that some run leaves able to start shows the one half. */
  lemma AtMostOnceExactly(ctx: Context, events: seq<Event>, q: Sender)
    requires CanStartAfter(ctx, events, q)
    ensures
      AtMostOnce(ctx) <==>
      ctx.settings.maxExpiryWindow == 0
      || ctx.settings.replayWindow >= ctx.settings.maxExpiryWindow + ctx.settings.futureSkew
  {
    hide CanStartAfter, IsRun, WellTimed, Play, TwiceSent;
    var s := ctx.settings;
    if s.maxExpiryWindow == 0 {
      forall t: Trace, i: nat, j: nat | t.ctx == ctx && IsRun(t) && WellTimed(t) ensures !RunsTwice(t, i, j) {
        if RunsTwice(t, i, j) { NothingRuns(t, i); }
      }
    } else if s.replayWindow >= s.maxExpiryWindow + s.futureSkew {
      forall t: Trace, i: nat, j: nat | t.ctx == ctx && IsRun(t) && WellTimed(t) ensures !RunsTwice(t, i, j) {
        LongWindowMeansAtMostOnce(t, i, j);
      }
    } else {
      ShortWindowRunsTwice(ctx, events, q);
    }
  }

  /** The shipped defaults (a seven-day expiry window, five minutes of skew, a one-day replay window) are on the wrong
      side: from every state a sender can start in, one signed text runs twice, a week and five minutes apart. */
  lemma ShippedDefaultsRunTwice(ctx: Context, events: seq<Event>, q: Sender)
    requires CanStartAfter(ctx, events, q)
    requires ctx.settings.maxExpiryWindow == 604800 && ctx.settings.futureSkew == 300 && ctx.settings.replayWindow == 86400
    ensures
      var twice := TwiceSent(ctx, q);
      var t := Play(ctx, events + twice);
      && IsRun(t) && RunsTwice(t, |events|, |events| + 1)
      && PyInt(twice[1].now) - PyInt(twice[0].now) == 605100 && !AtMostOnce(ctx)
  {
    hide CanSend, RequestBody, Play, IsRun, WellTimed, RunsTwice, PyInt, ExpiresAt;
    ShortWindowRunsTwice(ctx, events, q);
    AtMostOnceExactly(ctx, events, q);
    SenderStarts(ctx, q);
    SpanOfTwice(ctx.settings, q);
  }
}
