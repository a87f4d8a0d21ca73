// The genesis wizard: issue a challenge, verify and consume it, complete, reset.
// The functions say what each step leaves in the working tables; the methods are
// the steps themselves, proved to compute them.
module Genesis {
  import opened Wrappers
  import opened Errors
  import opened Text
  import opened Database
  import opened Repositories
  import opened ChallengeText

  const CHALLENGE_TTL := 300
  const COMPLETION_WINDOW := 900
  const MAX_ROOT_LABEL := 63
  const MAX_DISPLAY_NAME := 256
  const MAX_IMAGE_BYTES := 262144

  type Outcome<T> = Result<T, ErrorCode>

  datatype Issued = Issued(challengeId: string, body: string, issuedAt: int, expiresAt: int)

  datatype CompleteArgs = CompleteArgs(
    challengeId: string, subjectKey: string, rootName: string, orgKey: string,
    displayName: Option<string>, image: Option<string>, mime: Option<string>)

  // ---- reading the singleton row ------------------------------------------------

  /** The label as `get()` reads it: stripped and lower-cased, blank meaning unset. */
  function SnapshotLabel(g: GenesisRow): Option<string> {
    if g.rootLabel.Some? && Strip(g.rootLabel.value) != "" then Some(Lower(Strip(g.rootLabel.value))) else None
  }

  function StoredInstanceId(g: GenesisRow): Option<string> {
    if g.instanceId.Some? && Strip(g.instanceId.value) != "" then Some(Strip(g.instanceId.value)) else None
  }

  // ---- validators -----------------------------------------------------------------

  /** `validate_genesis_root_organization_label` */
  function ValidateRootLabel(raw: string): Outcome<string> {
    var s := Strip(raw);
    if s == "" || '.' in s || (exists i :: 0 <= i < |s| && (s[i] as int < 32 || s[i] as int == 127)) || |Lower(s)| > MAX_ROOT_LABEL
    then Failure(GenesisCompletionRejected)
    else Success(Lower(s))
  }

  function ValidateOrgKey(platform: Platform, raw: string): Outcome<string> {
    var s := NormalizeKey(raw);
    if IsLowerHex(s, 64) && platform.validKey(s) then Success(s) else Failure(GenesisCompletionRejected)
  }

  function ValidateDisplayName(raw: Option<string>): Outcome<Option<string>> {
    if raw.None? || Strip(raw.value) == "" then Success(None)
    else if |Strip(raw.value)| > MAX_DISPLAY_NAME then Failure(GenesisCompletionRejected)
    else Success(Some(Strip(raw.value)))
  }

  predicate AllowedMime(m: string) { m in {"image/png", "image/jpeg", "image/webp", "image/gif"} }

  function ValidateImage(image: Option<string>, mime: Option<string>): Outcome<Option<Image>> {
    if image.None? && mime.None? then Success(None)
    else if image.None? || mime.None? || |image.value| > MAX_IMAGE_BYTES || !AllowedMime(Lower(Strip(mime.value)))
    then Failure(GenesisCompletionRejected)
    else Success(Some(Image(image.value, Lower(Strip(mime.value)))))
  }

  // ---- issue ----------------------------------------------------------------------

  function NewChallenge(instanceId: string, challengeId: string, now: int, key: string): Outcome<Challenge> {
    if now < 0 then Failure(GenesisChallengeRejected)
    else
      var c := Challenge(instanceId, challengeId, now, now + CHALLENGE_TTL, key);
      if Issuable(c) then Success(c) else Failure(GenesisChallengeRejected)
  }

  function TouchedForIssue(g: GenesisRow, now: int, freshInstance: string): GenesisRow {
    if StoredInstanceId(g).Some? then g.(updatedAt := now)
    else g.(updatedAt := now, instanceId := Some(freshInstance))
  }

  /** `issue`, with the identifiers the random source would return. */
  function Issue(db: Db, platform: Platform, now: int, rawKey: string, challengeId: string, freshInstance: string)
    : (Db, Outcome<Issued>)
  {
    if db.genesis.complete then (db, Failure(GenesisChallengeRejected))
    else
      var touched := db.(genesis := TouchedForIssue(db.genesis, now, freshInstance));
      StoreChallenge(touched, platform, now, NormalizeKey(rawKey), challengeId, StoredInstanceId(touched.genesis).GetOr(""))
  }

  /** Build the body and insert the pending row. */
  function StoreChallenge(db: Db, platform: Platform, now: int, key: string, challengeId: string, instanceId: string)
    : (Db, Outcome<Issued>)
  {
    match NewChallenge(instanceId, challengeId, now, key)
    case Failure(e) => (db, Failure(e))
    case Success(c) =>
      if !platform.validKey(key) then (db, Failure(GenesisChallengeRejected))
      else if challengeId in db.challenges then (db, Failure(InternalError))
      else
        var row := ChallengeRow(key, Body(c), now, now + CHALLENGE_TTL, None);
        (db.(challenges := db.challenges[challengeId := row]), Success(Issued(challengeId, Body(c), now, now + CHALLENGE_TTL)))
  }

  // ---- verify and consume -----------------------------------------------------------

  predicate SignatureOk(platform: Platform, row: ChallengeRow, signature: string) {
    IsLowerHex(row.subjectKey, 64) && platform.validKey(row.subjectKey) && IsLowerHex(signature, 128)
    && platform.verifySignature(row.subjectKey, row.body, signature)
  }

  /** A pending, unexpired challenge with a good signature over its stored body. */
  predicate Consumable(db: Db, platform: Platform, now: int, challengeId: string, signature: string) {
    !db.genesis.complete && challengeId in db.challenges
    && db.challenges[challengeId].consumedAt.None? && now < db.challenges[challengeId].expiresAt
    && SignatureOk(platform, db.challenges[challengeId], signature)
  }

  function VerifyAndConsume(db: Db, platform: Platform, now: int, challengeId: string, signature: string): (Db, Outcome<()>) {
    if !Consumable(db, platform, now, challengeId, signature) then (db, Failure(GenesisChallengeRejected))
    else
      var row := db.challenges[challengeId].(consumedAt := Some(now));
      (db.(challenges := db.challenges[challengeId := row], genesis := db.genesis.(updatedAt := now)), Success(()))
  }

  // ---- complete -----------------------------------------------------------------------

  datatype Completion = Completion(
    rootLabel: string, orgKey: string, subjectKey: string, displayName: Option<string>, image: Option<Image>)

  /** Every check `complete_genesis` makes before it writes. */
  function CheckCompletion(db: Db, platform: Platform, now: int, a: CompleteArgs): Outcome<Completion> {
    var cid := Lower(Strip(a.challengeId));
    var subject := NormalizeKey(a.subjectKey);
    if db.genesis.complete || !IsLowerHex(cid, 64) || cid !in db.challenges then Failure(GenesisCompletionRejected)
    else
      var row := db.challenges[cid];
      if row.consumedAt.None? || subject != row.subjectKey || now - row.consumedAt.value > COMPLETION_WINDOW
      then Failure(GenesisCompletionRejected)
      else
        var rootLabel :- ValidateRootLabel(a.rootName);
        var orgKey :- ValidateOrgKey(platform, a.orgKey);
        var display :- ValidateDisplayName(a.displayName);
        var image :- ValidateImage(a.image, a.mime);
        if rootLabel in db.names && !RootBindingMatches(db.names[rootLabel], orgKey) then Failure(GenesisCompletionRejected)
        else Success(Completion(rootLabel, orgKey, subject, display, image))
  }

  predicate RootBindingMatches(row: NameRow, orgKey: string) {
    row.resolvedId == orgKey && row.routeJson.None? && row.metadataJson.None?
  }

  function BindRoot(names: map<string, NameRow>, c: Completion, now: int): map<string, NameRow> {
    if c.rootLabel in names then names else names[c.rootLabel := NameRow(c.orgKey, None, None, now)]
  }

  function Complete(db: Db, platform: Platform, now: int, a: CompleteArgs): (Db, Outcome<Completion>) {
    match CheckCompletion(db, platform, now, a)
    case Failure(e) => (db, Failure(e))
    case Success(c) =>
      var bound := db.(names := BindRoot(db.names, c, now),
                       genesis := db.genesis.(rootLabel := Some(c.rootLabel), updatedAt := now));
      if !IsLowerHex(c.subjectKey, 64) || !platform.validKey(c.subjectKey) then (bound, Failure(InternalError))
      else
        (bound.(genesis := bound.genesis.(bootstrapKey := Some(c.subjectKey), displayName := c.displayName,
                                          operatorImage := c.image, complete := true)),
         Success(c))
  }

  // ---- reset --------------------------------------------------------------------------

  function ResetLabel(g: GenesisRow, override: Option<string>): Outcome<Option<string>> {
    if SnapshotLabel(g).Some? || override.None? || override.value == "" then Success(SnapshotLabel(g))
    else
      var chosen :- ValidateRootLabel(override.value);
      Success(Some(chosen))
  }

  function ClearedGenesis(g: GenesisRow, now: int): GenesisRow {
    g.(complete := false, bootstrapKey := None, displayName := None, rootLabel := None, operatorImage := None, updatedAt := now)
  }

  function Reset(db: Db, now: int, override: Option<string>): (Db, Outcome<()>) {
    match ResetLabel(db.genesis, override)
    case Failure(e) => (db, Failure(e))
    case Success(chosen) =>
      if db.genesis.complete && chosen.None? then (db, Failure(GenesisResetRejected))
      else
        var names := if db.genesis.complete then db.names - {chosen.value} else db.names;
        (db.(names := names, challenges := map[], genesis := ClearedGenesis(db.genesis, now)), Success(()))
  }

  // ---- the steps ------------------------------------------------------------------------

  method SetGenesis(conn: Connection, g: GenesisRow)
    modifies conn`working
    ensures conn.working == old(conn.working).(genesis := g)
  {
    conn.working := conn.working.(genesis := g);
  }

  /** Returns the stable instance id, allocating it once. */
  method GetOrCreateInstanceId(conn: Connection, now: int, freshInstance: string) returns (id: string)
    modifies conn`working
    ensures
      var g := old(conn.working).genesis;
      if StoredInstanceId(g).Some? then id == StoredInstanceId(g).value && conn.working == old(conn.working)
      else id == freshInstance
           && conn.working == old(conn.working).(genesis := g.(instanceId := Some(freshInstance), updatedAt := now))
  {
    var stored := StoredInstanceId(conn.working.genesis);
    if stored.Some? { return stored.value; }
    SetGenesis(conn, conn.working.genesis.(instanceId := Some(freshInstance), updatedAt := now));
    return freshInstance;
  }

  method IssueChallenge(
    conn: Connection, platform: Platform, now: int, rawKey: string, challengeId: string, freshInstance: Uuid)
    returns (r: Outcome<Issued>)
    modifies conn`working
    ensures (conn.working, r) == Issue(old(conn.working), platform, now, rawKey, challengeId, freshInstance)
  {
    hide StoreChallenge, Strip, NormalizeKey;
    UuidIsStripped(freshInstance);
    if conn.working.genesis.complete { return Failure(GenesisChallengeRejected); }
    SetGenesis(conn, conn.working.genesis.(updatedAt := now));
    var instanceId := GetOrCreateInstanceId(conn, now, freshInstance);
    r := InsertChallenge(conn, platform, now, NormalizeKey(rawKey), challengeId, instanceId);
  }

  method InsertChallenge(conn: Connection, platform: Platform, now: int, key: string, challengeId: string, instanceId: string)
    returns (r: Outcome<Issued>)
    modifies conn`working
    ensures (conn.working, r) == StoreChallenge(old(conn.working), platform, now, key, challengeId, instanceId)
  {
    hide Body, NewChallenge;
    var c :- NewChallenge(instanceId, challengeId, now, key);
    if !platform.validKey(key) { return Failure(GenesisChallengeRejected); }
    if challengeId in conn.working.challenges { return Failure(InternalError); }
    var row := ChallengeRow(key, Body(c), now, now + CHALLENGE_TTL, None);
    conn.working := conn.working.(challenges := conn.working.challenges[challengeId := row]);
    return Success(Issued(challengeId, Body(c), now, now + CHALLENGE_TTL));
  }

  lemma UuidIsStripped(id: Uuid)
    ensures id != "" && Strip(id) == id
  {
    hide Trim;
    assert IsUuidChar(0, id[0]) && IsUuidChar(35, id[35]);
    TrimIsTrimmed(id, IsPySpace);
  }

  /** Conditional consume: true when a pending row was updated. */
  method MarkConsumed(conn: Connection, challengeId: string, now: int) returns (updated: bool)
    modifies conn`working
    ensures updated <==> challengeId in old(conn.working).challenges && old(conn.working).challenges[challengeId].consumedAt.None?
    ensures conn.working ==
            if updated then
              old(conn.working).(challenges := old(conn.working).challenges[
                challengeId := old(conn.working).challenges[challengeId].(consumedAt := Some(now))])
            else old(conn.working)
  {
    updated := challengeId in conn.working.challenges && conn.working.challenges[challengeId].consumedAt.None?;
    if updated {
      var row := conn.working.challenges[challengeId].(consumedAt := Some(now));
      conn.working := conn.working.(challenges := conn.working.challenges[challengeId := row]);
    }
  }

  method VerifyChallenge(conn: Connection, platform: Platform, now: int, challengeId: string, signature: string)
    returns (r: Outcome<()>)
    modifies conn`working
    ensures (conn.working, r) == VerifyAndConsume(old(conn.working), platform, now, challengeId, signature)
  {
    if conn.working.genesis.complete || challengeId !in conn.working.challenges { return Failure(GenesisChallengeRejected); }
    var row := conn.working.challenges[challengeId];
    if row.consumedAt.Some? || now >= row.expiresAt || !SignatureOk(platform, row, signature) {
      return Failure(GenesisChallengeRejected);
    }
    var consumed := MarkConsumed(conn, challengeId, now);
    if !consumed { return Failure(GenesisChallengeRejected); }
    SetGenesis(conn, conn.working.genesis.(updatedAt := now));
    return Success(());
  }

  method CompleteGenesis(conn: Connection, platform: Platform, now: int, a: CompleteArgs) returns (r: Outcome<Completion>)
    modifies conn`working
    ensures (conn.working, r) == Complete(old(conn.working), platform, now, a)
  {
    hide CheckCompletion, IsLowerHex;
    var c :- CheckCompletion(conn.working, platform, now, a);
    if c.rootLabel !in conn.working.names {
      var inserted := InsertName(conn, c.rootLabel, NameRow(c.orgKey, None, None, now));
    }
    SetGenesis(conn, conn.working.genesis.(rootLabel := Some(c.rootLabel), updatedAt := now));
    if !IsLowerHex(c.subjectKey, 64) || !platform.validKey(c.subjectKey) { return Failure(InternalError); }
    SetGenesis(conn, conn.working.genesis.(bootstrapKey := Some(c.subjectKey)));
    SetGenesis(conn, conn.working.genesis.(displayName := c.displayName));
    SetGenesis(conn, conn.working.genesis.(operatorImage := c.image));
    SetGenesis(conn, conn.working.genesis.(complete := true));
    return Success(c);
  }

  method ResetGenesisState(conn: Connection, now: int, override: Option<string>) returns (r: Outcome<()>)
    modifies conn`working
    ensures (conn.working, r) == Reset(old(conn.working), now, override)
  {
    hide ResetLabel;
    var g := conn.working.genesis;
    var chosen :- ResetLabel(g, override);
    if g.complete && chosen.None? { return Failure(GenesisResetRejected); }
    if g.complete {
      var removed := DeleteName(conn, chosen.value);
    }
    conn.working := conn.working.(challenges := map[]);
    SetGenesis(conn, ClearedGenesis(g, now));
    return Success(());
  }
}
