// An honest client's request passes every check of the server, whatever its operation and payload; for a
// browser's request exactly when its numbers survive the two printers.
module HonestRequests {
  import opened Wrappers
  import opened Errors
  import opened Json
  import opened JsonRoundTrip
  import opened Canonical
  import opened Printers
  import opened Signing
  import opened Database
  import opened Registry
  import opened Core
  import opened StepLaws

  /** The two dates are instants and acceptable at this clock reading. */
  predicate GoodDates(ctx: Context, o: SignOptions, now: real) {
    var ts, exp := Instant(Some(o.timestamp), ctx.platform), Instant(Some(o.expiresAt), ctx.platform);
    ts.Success? && exp.Success? && CheckWindow(ts.value, exp.value, ctx.settings, now).Success?
  }

  /** Fields every request needs, whoever prints it. */
  predicate GoodFields(ctx: Context, o: SignOptions) {
    && o.protocolVersion == PROTOCOL_VERSION && o.messageId != "" && IsCoreOperation(o.operation) && o.senderId != ""
    && IsLowerHex(o.publicKeyHex, 64) && ctx.platform.validKey(o.publicKeyHex)
    && o.payload.Obj? && Utf8Length(CanonicalJsonStr(o.payload)) <= ctx.settings.maxPayloadBytes
  }

  function UnsignedText(o: SignOptions, hash: string): string { CanonicalJsonStr(Obj(UnsignedMembers(o, hash))) }

  /** What the server makes of the request. */
  function MessageOf(o: SignOptions): Inbound {
    CanonWellFormed(o.payload);
    Inbound(o.messageId, o.operation, o.senderId, o.publicKeyHex, Canon(o.payload))
  }

  // ---- what the server parses ----------------------------------------------------------

  function ParsedEnvelope(o: SignOptions, hash: string, sig: string): Json {
    Canon(Obj(Put(UnsignedMembers(o, hash), "signature", Str(sig))))
  }

  lemma EnvelopeMember(o: SignOptions, hash: string, sig: string, i: nat, name: string, value: Json)
    requires i < 12 && UnsignedPairs(o, hash)[i] == Member(name, value)
    ensures Get(ParsedEnvelope(o, hash, sig), name) == Some(Canon(value))
  {
    hide Dict, Find, Canon, Get, WellFormed, Put;
    UnsignedMembersLaws(o, hash);
    SignedMember(UnsignedMembers(o, hash), sig, name);
    FindDict(UnsignedPairs(o, hash), i);
  }

  lemma EnvelopeText(o: SignOptions, hash: string, sig: string, i: nat, name: string, text: string)
    requires i < 12 && UnsignedPairs(o, hash)[i] == Member(name, Str(text))
    ensures Get(ParsedEnvelope(o, hash, sig), name) == Some(Str(text))
  {
    hide ParsedEnvelope, Get, UnsignedPairs;
    EnvelopeMember(o, hash, sig, i, name, Str(text));
    CanonOfStr(text);
  }

  /** The members of the parsed request. */
  ghost predicate IsEnvelope(env: Json, o: SignOptions, hash: string, sig: string) {
    && WellFormed(env) && env.Obj? && SigningText(env) == UnsignedText(o, hash)
    && IsHeader(env, o)
    && Get(env, "timestamp") == Some(Canon(o.timestamp)) && Get(env, "expires_at") == Some(Canon(o.expiresAt))
    && Get(env, "payload") == Some(Canon(o.payload)) && Get(env, "payload_hash") == Some(Str(hash))
    && Get(env, "signature") == Some(Str(sig)) && Get(env, "target_module_version") == None
  }

  predicate IsHeader(env: Json, o: SignOptions) {
    && Get(env, "protocol_version") == Some(Str(o.protocolVersion)) && Get(env, "message_id") == Some(Str(o.messageId))
    && Get(env, "target_module") == Some(Str(CORE_MODULE)) && Get(env, "operation") == Some(Str(o.operation))
    && Get(env, "sender_id") == Some(Str(o.senderId)) && Get(env, "sender_key_type") == Some(Str("ed25519"))
    && Get(env, "sender_public_key") == Some(Str(o.publicKeyHex)) && Get(env, "signature_algorithm") == Some(Str("ed25519"))
  }

  lemma ParsedHeader(o: SignOptions, hash: string, sig: string)
    ensures IsHeader(ParsedEnvelope(o, hash, sig), o)
  {
    hide ParsedEnvelope, Get;
    EnvelopeText(o, hash, sig, 0, "protocol_version", o.protocolVersion);
    EnvelopeText(o, hash, sig, 1, "message_id", o.messageId);
    EnvelopeText(o, hash, sig, 2, "target_module", CORE_MODULE);
    EnvelopeText(o, hash, sig, 3, "operation", o.operation);
    EnvelopeText(o, hash, sig, 4, "sender_id", o.senderId);
    EnvelopeText(o, hash, sig, 5, "sender_key_type", "ed25519");
    EnvelopeText(o, hash, sig, 6, "sender_public_key", o.publicKeyHex);
    EnvelopeText(o, hash, sig, 11, "signature_algorithm", "ed25519");
  }

  lemma ParsedContent(o: SignOptions, hash: string, sig: string)
    ensures
      var env := ParsedEnvelope(o, hash, sig);
      && Get(env, "timestamp") == Some(Canon(o.timestamp)) && Get(env, "expires_at") == Some(Canon(o.expiresAt))
      && Get(env, "payload") == Some(Canon(o.payload)) && Get(env, "payload_hash") == Some(Str(hash))
      && Get(env, "signature") == Some(Str(sig)) && Get(env, "target_module_version") == None
  {
    hide ParsedEnvelope, Get, Canon;
    EnvelopeMember(o, hash, sig, 7, "timestamp", o.timestamp);
    EnvelopeMember(o, hash, sig, 8, "expires_at", o.expiresAt);
    EnvelopeMember(o, hash, sig, 9, "payload", o.payload);
    EnvelopeText(o, hash, sig, 10, "payload_hash", hash);
    ParsedSignature(o, hash, sig);
  }

  lemma ParsedSignature(o: SignOptions, hash: string, sig: string)
    ensures
      var env := ParsedEnvelope(o, hash, sig);
      Get(env, "signature") == Some(Str(sig)) && Get(env, "target_module_version") == None
  {
    hide Dict, Find, Canon, Get, WellFormed, Put;
    UnsignedMembersLaws(o, hash);
    SignedMember(UnsignedMembers(o, hash), sig, "signature");
    SignedMember(UnsignedMembers(o, hash), sig, "target_module_version");
    FindDictNone(UnsignedPairs(o, hash), "target_module_version");
  }

  lemma BodyParses(o: SignOptions, hash: string, sig: string, p: Printer)
    requires Printable(Obj(UnsignedMembers(o, hash)), p)
    ensures
      var env := ParsedEnvelope(o, hash, sig);
      Parse(SignedBody(UnsignedMembers(o, hash), sig, p)) == Some(env) && IsEnvelope(env, o, hash, sig)
  {
    hide Parse, Find, Canon, SigningText, Get, WellFormed, Put, Render, SignedBody, UnsignedMembers, Printable, IsHeader;
    var ms := UnsignedMembers(o, hash);
    UnsignedMembersLaws(o, hash);
    ServerReadsEnvelope(ms, sig, p);
    SignedBodyParses(ms, sig, p);
    ParsedHeader(o, hash, sig);
    ParsedContent(o, hash, sig);
  }

  // ---- the checks -------------------------------------------------------------------------

  lemma ShapeIsGood(env: JsonValue, ctx: Context, o: SignOptions, hash: string, sig: string)
    requires IsEnvelope(env, o, hash, sig) && GoodFields(ctx, o) && sig != ""
    ensures CheckShape(env) == Success(())
  {
    hide Get, SigningText, UnsignedText, WellFormed, Canon, IsLowerHex, IsCoreOperation, CanonicalJsonStr, Utf8Length;
    KeyIsFilled(o.publicKeyHex);
    OperationIsFilled(o.operation);
    HeaderHasTexts(env, o);
  }

  lemma HeaderHasTexts(env: JsonValue, o: SignOptions)
    requires IsHeader(env, o) && o.protocolVersion != "" && o.messageId != "" && o.operation != "" && o.senderId != "" && o.publicKeyHex != ""
    ensures HasTexts(env)
  {
    hide Get;
    var names := RequiredTexts();
    assert names[0] == "protocol_version" && names[1] == "message_id" && names[2] == "target_module" && names[3] == "operation";
    assert names[4] == "sender_id" && names[5] == "sender_key_type" && names[6] == "sender_public_key";
    assert names[7] == "signature_algorithm";
  }

  lemma OperationIsFilled(op: string)
    requires IsCoreOperation(op)
    ensures op != ""
  {
  }

  lemma KeyIsFilled(key: string)
    requires IsLowerHex(key, 64)
    ensures key != ""
  {
  }

  lemma PayloadIsGood(env: JsonValue, ctx: Context, o: SignOptions, hash: string, sig: string)
    requires IsEnvelope(env, o, hash, sig) && GoodFields(ctx, o)
    requires hash == ctx.platform.sha256Hex(CanonicalJsonStr(o.payload)) && hash != ""
    ensures CheckPayload(env, ctx.settings, ctx.platform) == Success(MessageOf(o).payload)
  {
    CanonicalOfCanon(o.payload);
    hide Get, SigningText, UnsignedText, WellFormed, IsHeader, IsLowerHex, Utf8Length, CanonicalJsonStr, SortMembers;
  }

  lemma CanonicalOfCanon(v: JsonValue)
    ensures CanonicalJsonStr(Canon(v)) == CanonicalJsonStr(v)
  {
    hide Canon, Render;
    CanonIdempotent(v);
  }

  lemma DatesAreGood(env: JsonValue, ctx: Context, o: SignOptions, hash: string, sig: string, now: real)
    requires IsEnvelope(env, o, hash, sig) && GoodDates(ctx, o, now)
    ensures CheckTimes(env, ctx, now) == Success(())
  {
    InstantOfCanonical(o.timestamp, ctx.platform);
    InstantOfCanonical(o.expiresAt, ctx.platform);
    hide Get, SigningText, UnsignedText, WellFormed, Canon, IsHeader, Instant;
  }

  lemma InstantOfCanonical(v: Json, platform: Platform)
    ensures Instant(Some(Canon(v)), platform) == Instant(Some(v), platform)
  {
    hide SortMembers;
  }

  lemma SignatureIsGood(env: JsonValue, ctx: Context, o: SignOptions, hash: string, sig: string)
    requires IsEnvelope(env, o, hash, sig) && GoodFields(ctx, o) && IsLowerHex(sig, 128)
    ensures
      CheckSignature(env, ctx.platform)
      == if ctx.platform.verifySignature(o.publicKeyHex, UnsignedText(o, hash), sig) then Success(()) else Failure(SignatureInvalid)
  {
    hide Get, SigningText, UnsignedText, WellFormed, Canon, IsLowerHex, Utf8Length, IsCoreOperation, CanonicalJsonStr;
  }

  lemma SignatureIsFilled(sig: string)
    requires IsLowerHex(sig, 128)
    ensures sig != ""
  {
  }

  lemma EnvelopeIsGood(env: JsonValue, ctx: Context, o: SignOptions, hash: string, sig: string, now: real)
    requires IsEnvelope(env, o, hash, sig) && GoodFields(ctx, o) && GoodDates(ctx, o, now) && IsLowerHex(sig, 128)
    requires hash == ctx.platform.sha256Hex(CanonicalJsonStr(o.payload)) && hash != ""
    requires ctx.platform.verifySignature(o.publicKeyHex, UnsignedText(o, hash), sig)
    ensures CheckEnvelope(env, ctx, now) == Success(MessageOf(o))
  {
    hide Get, SigningText, UnsignedText, WellFormed, Canon, IsLowerHex, GoodFields, GoodDates, CheckShape, CheckPayload, CheckTimes,
         CheckSignature, CanonicalJsonStr;
    SignatureIsFilled(sig);
    ShapeIsGood(env, ctx, o, hash, sig);
    PayloadIsGood(env, ctx, o, hash, sig);
    DatesAreGood(env, ctx, o, hash, sig, now);
    SignatureIsGood(env, ctx, o, hash, sig);
  }

  /** Every well-formed request of an effective bootstrap key, correctly hashed and signed, passes every check, whatever
      its operation and payload. */
  lemma RequestIsPresented(db: Db, ctx: Context, o: SignOptions, hash: string, sig: string, p: Printer, now: real)
    requires GoodFields(ctx, o) && GoodDates(ctx, o, now) && SenderIsBootstrap(ctx.settings, db.genesis, o.publicKeyHex)
    requires hash == ctx.platform.sha256Hex(CanonicalJsonStr(o.payload)) && hash != "" && IsLowerHex(sig, 128)
    requires ctx.platform.verifySignature(o.publicKeyHex, UnsignedText(o, hash), sig)
    requires Printable(Obj(UnsignedMembers(o, hash)), p)
    requires Utf8Length(SignedBody(UnsignedMembers(o, hash), sig, p)) <= ctx.settings.maxBodyBytes
    ensures
      Presented(db, ctx, Utf8(SignedBody(UnsignedMembers(o, hash), sig, p)), now) == Some((MessageOf(o), UnsignedText(o, hash)))
  {
    hide CheckEnvelope, Get, SigningText, WellFormed, Parse, SenderIsBootstrap, IsLowerHex, ParsedEnvelope, Utf8Length, SignedBody,
         UnsignedMembers, GoodFields, GoodDates, Printable, CanonicalJsonStr, Canon, IsHeader;
    BodyParses(o, hash, sig, p);
    EnvelopeIsGood(ParsedEnvelope(o, hash, sig), ctx, o, hash, sig, now);
  }

  // ---- the browser's request --------------------------------------------------------------

  /** The hash and the text the browser signs, as `Signing.BuildSignedMessageBody` makes them. */
  function BrowserHash(platform: Platform, o: SignOptions): string { platform.sha256Hex(BrowserJsonStr(o.payload)) }

  function BrowserText(platform: Platform, o: SignOptions): string { BrowserJsonStr(Obj(UnsignedMembers(o, BrowserHash(platform, o)))) }

  function BrowserBody(platform: Platform, o: SignOptions, sig: string): string {
    SignedBody(UnsignedMembers(o, BrowserHash(platform, o)), sig, Browser)
  }

  /** The signature verifies over the signed text and over no other. */
  ghost predicate SignsOnly(platform: Platform, key: string, text: string, sig: string) {
    IsLowerHex(sig, 128) && forall t :: platform.verifySignature(key, t, sig) <==> t == text
  }

  lemma BrowserTextIsCanonicalIff(platform: Platform, o: SignOptions)
    requires AllOptions(o, IsBrowserNumber)
    ensures BrowserText(platform, o) == UnsignedText(o, BrowserHash(platform, o)) <==> AllOptions(o, IsPlainNumber)
    ensures AllOptions(o, IsPlainNumber) ==> BrowserHash(platform, o) == platform.sha256Hex(CanonicalJsonStr(o.payload))
    ensures Printable(Obj(UnsignedMembers(o, BrowserHash(platform, o))), Browser)
  {
    hide UnsignedMembers, AllNumbers, WellFormed, Canon, Render;
    var hash := BrowserHash(platform, o);
    UnsignedIsBrowserJson(o, hash);
    UnsignedNumbers(o, hash, IsPlainNumber);
    PrintersAgreeIff(Obj(UnsignedMembers(o, hash)));
    PrintersAgreeIff(o.payload);
  }

  /** A presented request was verified over the text the server recomputes. */
  lemma PresentedIsVerified(db: Db, ctx: Context, o: SignOptions, sig: string, now: real)
    requires AllOptions(o, IsBrowserNumber)
    requires Presented(db, ctx, Utf8(BrowserBody(ctx.platform, o, sig)), now).Some?
    ensures ctx.platform.verifySignature(o.publicKeyHex, UnsignedText(o, BrowserHash(ctx.platform, o)), sig)
  {
    hide CheckShape, CheckPayload, CheckTimes, Get, SigningText, WellFormed, Parse, SenderIsBootstrap, IsLowerHex, ParsedEnvelope,
         Utf8Length, SignedBody, UnsignedMembers, UnsignedText, Printable, Canon, AllOptions;
    BrowserTextIsCanonicalIff(ctx.platform, o);
    BodyParses(o, BrowserHash(ctx.platform, o), sig, Browser);
  }

  /** An honest browser's request, within the limits and signed for its own text only, passes every check if and only if
      dates and payload hold no integral number from 2^53 on and below 10^16. */
  lemma BrowserRequestIsAcceptedIff(db: Db, ctx: Context, o: SignOptions, sig: string, now: real)
    requires AllOptions(o, IsBrowserNumber)
    requires GoodFields(ctx, o) && GoodDates(ctx, o, now) && SenderIsBootstrap(ctx.settings, db.genesis, o.publicKeyHex)
    requires BrowserHash(ctx.platform, o) != "" && SignsOnly(ctx.platform, o.publicKeyHex, BrowserText(ctx.platform, o), sig)
    requires Utf8Length(BrowserBody(ctx.platform, o, sig)) <= ctx.settings.maxBodyBytes
    ensures
      Presented(db, ctx, Utf8(BrowserBody(ctx.platform, o, sig)), now)
      == if AllOptions(o, IsPlainNumber) then Some((MessageOf(o), BrowserText(ctx.platform, o))) else None
  {
    hide Presented, UnsignedMembers, UnsignedText, GoodFields, GoodDates, SenderIsBootstrap, Utf8Length, IsLowerHex, SignedBody, AllOptions,
         Printable, BrowserHash, BrowserText, MessageOf;
    BrowserTextIsCanonicalIff(ctx.platform, o);
    if AllOptions(o, IsPlainNumber) {
      RequestIsPresented(db, ctx, o, BrowserHash(ctx.platform, o), sig, Browser, now);
    } else if Presented(db, ctx, Utf8(BrowserBody(ctx.platform, o, sig)), now).Some? {
      PresentedIsVerified(db, ctx, o, sig, now);
    }
  }
}
