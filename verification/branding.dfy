// User profile images and descriptions: column-preserving upserts under a key row
// and, when a handle is given, a handle row.
module Branding {
  import opened Wrappers
  import opened Errors
  import opened Text
  import opened Json
  import opened JsonRoundTrip
  import opened Database
  import opened Genesis

  const MAX_HANDLE := 256
  const MAX_DESCRIPTION := 2048

  type UserTable = map<string, UserRow>

  function KeyLookup(key: string): string { "p:" + NormalizeKey(key) }

  function HandleLookup(handle: string): string { "h:" + handle }

  // ---- statements ---------------------------------------------------------------

  /** `upsert_user`: overwrites the image columns, keeps the description. */
  function UpsertImage(users: UserTable, lookup: string, image: Option<Image>, key: string, now: int): UserTable {
    var row := if lookup in users then users[lookup].(image := image, signingKey := key, updatedAt := now)
               else UserRow(image, None, key, now);
    users[lookup := row]
  }

  /** `upsert_user_description`: overwrites the description, keeps the image columns. */
  function UpsertDescription(users: UserTable, lookup: string, description: Option<string>, key: string, now: int): UserTable {
    var row := if lookup in users then users[lookup].(description := description, signingKey := key, updatedAt := now)
               else UserRow(None, description, key, now);
    users[lookup := row]
  }

  /** One accepted write by or for a user key. */
  datatype UserWrite =
    | SetImage(key: string, handle: Option<string>, image: Option<Image>, at: int)
    | SetDescription(key: string, handle: Option<string>, description: Option<string>, at: int)

  function ApplyTo(users: UserTable, w: UserWrite, lookup: string): UserTable {
    match w
    case SetImage(key, _, image, at) => UpsertImage(users, lookup, image, NormalizeKey(key), at)
    case SetDescription(key, _, description, at) => UpsertDescription(users, lookup, description, NormalizeKey(key), at)
  }

  function ApplyWrite(users: UserTable, w: UserWrite): UserTable {
    var keyed := ApplyTo(users, w, KeyLookup(w.key));
    if w.handle.Some? then ApplyTo(keyed, w, HandleLookup(w.handle.value)) else keyed
  }

  function ApplyAll(writes: seq<UserWrite>): UserTable {
    if |writes| == 0 then map[] else ApplyWrite(ApplyAll(writes[..|writes| - 1]), writes[|writes| - 1])
  }

  // ---- last write wins, column by column ------------------------------------------

  /** The image of the last image write for a key, or none if it never wrote one. */
  function LastImage(writes: seq<UserWrite>, key: string): Option<Image> {
    if |writes| == 0 then None
    else
      var w := writes[|writes| - 1];
      if w.SetImage? && NormalizeKey(w.key) == NormalizeKey(key) then w.image else LastImage(writes[..|writes| - 1], key)
  }

  function LastDescription(writes: seq<UserWrite>, key: string): Option<string> {
    if |writes| == 0 then None
    else
      var w := writes[|writes| - 1];
      if w.SetDescription? && NormalizeKey(w.key) == NormalizeKey(key) then w.description
      else LastDescription(writes[..|writes| - 1], key)
  }

  predicate Wrote(writes: seq<UserWrite>, key: string) {
    exists i :: 0 <= i < |writes| && NormalizeKey(writes[i].key) == NormalizeKey(key)
  }

  lemma KeyRowsAreNotHandleRows(key: string, handle: string, other: string)
    ensures KeyLookup(key) != HandleLookup(handle)
    ensures KeyLookup(key) == KeyLookup(other) <==> NormalizeKey(key) == NormalizeKey(other)
  {
    assert KeyLookup(key)[0] == 'p' && HandleLookup(handle)[0] == 'h';
    assert KeyLookup(key)[2..] == NormalizeKey(key) && KeyLookup(other)[2..] == NormalizeKey(other);
  }

  /** Effect of one write on one key row: an image write keeps the description, a description write keeps the
      image, and writes for other keys (through their key rows or any handle) change nothing. */
  lemma WriteTouchesOneColumn(users: UserTable, w: UserWrite, key: string)
    ensures
      var before, after := users, ApplyWrite(users, w);
      var k := KeyLookup(key);
      var image := if k in before then before[k].image else None;
      var description := if k in before then before[k].description else None;
      if NormalizeKey(w.key) == NormalizeKey(key) then
        k in after
        && after[k].image == (if w.SetImage? then w.image else image)
        && after[k].description == (if w.SetDescription? then w.description else description)
      else (k in after <==> k in before) && (k in before ==> after[k] == before[k])
  {
    hide NormalizeKey, KeyLookup, HandleLookup;
    KeyRowsAreNotHandleRows(w.key, w.handle.GetOr(""), key);
    KeyRowsAreNotHandleRows(key, w.handle.GetOr(""), key);
  }

  /** After any sequence of writes, a key's row exists exactly when the key wrote, and holds its last image and its
      last description, each independently of the other. */
  lemma {:induction false} KeyRowIsLastWrites(writes: seq<UserWrite>, key: string)
    ensures
      var users := ApplyAll(writes);
      var k := KeyLookup(key);
      && (k in users <==> Wrote(writes, key))
      && (k in users ==> users[k].image == LastImage(writes, key) && users[k].description == LastDescription(writes, key))
      && (k !in users ==> LastImage(writes, key).None? && LastDescription(writes, key).None?)
  {
    hide NormalizeKey, KeyLookup, HandleLookup;
    if |writes| > 0 {
      var front, w := writes[..|writes| - 1], writes[|writes| - 1];
      KeyRowIsLastWrites(front, key);
      WriteTouchesOneColumn(ApplyAll(front), w, key);
      hide ApplyWrite;
      if Wrote(front, key) {
        var i :| 0 <= i < |front| && NormalizeKey(front[i].key) == NormalizeKey(key);
        assert NormalizeKey(writes[i].key) == NormalizeKey(key);
      }
      if Wrote(writes, key) && NormalizeKey(w.key) != NormalizeKey(key) {
        var i :| 0 <= i < |writes| && NormalizeKey(writes[i].key) == NormalizeKey(key);
        assert front[i] == writes[i];
      }
    }
  }

  // ---- requests -------------------------------------------------------------------

  function RequireKey(p: JsonValue, field: string): Result<string, ErrorCode> {
    match Field(p, field)
    case Some(Str(s)) =>
      if Strip(s) == "" then Failure(PayloadInvalid)
      else if IsLowerHex(NormalizeKey(s), 64) then Success(NormalizeKey(s))
      else Failure(PublicKeyInvalid)
    case _ => Failure(PayloadInvalid)
  }

  function NormalizeHandle(raw: string): Result<string, ErrorCode> {
    var s := Strip(raw);
    var t := if s != "" && s[0] == '@' then Strip(s[1..]) else s;
    if t == "" || |t| > MAX_HANDLE then Failure(PayloadInvalid) else Success(Lower(t))
  }

  function OptionalHandle(p: JsonValue): Result<Option<string>, ErrorCode> {
    var raw :- OptionalStr(p, "user_handle");
    if raw.None? || Strip(raw.value) == "" then Success(None)
    else
      var h :- NormalizeHandle(raw.value);
      Success(Some(h))
  }

  function DecodeImage(p: JsonValue, platform: Platform): Result<Option<string>, ErrorCode> {
    match Field(p, "profile_image_base64")
    case None => Success(None)
    case Some(Null) => Success(None)
    case Some(Str(s)) =>
      if Strip(s) == "" then Success(None)
      else
        var bytes := platform.decodeImage(Strip(s));
        if bytes.None? || |bytes.value| > MAX_IMAGE_BYTES then Failure(PayloadInvalid) else Success(bytes)
    case _ => Failure(PayloadInvalid)
  }

  function OptionalMime(p: JsonValue): Result<Option<string>, ErrorCode> {
    var raw :- OptionalStr(p, "profile_image_mime");
    if raw.None? then Success(None)
    else if AllowedMime(Lower(Strip(raw.value))) then Success(Some(Lower(Strip(raw.value))))
    else Failure(PayloadInvalid)
  }

  function ParseSetImage(m: Inbound, platform: Platform, now: int): Result<UserWrite, ErrorCode> {
    var key :- RequireKey(m.payload, "user_signing_public_key_hex");
    var bytes :- DecodeImage(m.payload, platform);
    var mime :- OptionalMime(m.payload);
    var handle :- OptionalHandle(m.payload);
    if bytes.None? != mime.None? then Failure(PayloadInvalid)
    else Success(SetImage(key, handle, if bytes.Some? then Some(Image(bytes.value, mime.value)) else None, now))
  }

  function ParseSetDescription(m: Inbound, now: int): Result<UserWrite, ErrorCode> {
    var key :- RequireKey(m.payload, "user_signing_public_key_hex");
    var raw :- OptionalStr(m.payload, "description");
    if raw.Some? && |Strip(raw.value)| > MAX_DESCRIPTION then Failure(PayloadInvalid)
    else
      var handle :- OptionalHandle(m.payload);
      Success(SetDescription(key, handle, if raw.Some? && Strip(raw.value) != "" then Some(Strip(raw.value)) else None, now))
  }

  /** The owner of a key, or a bootstrap sender, may write its rows. */
  predicate MayWrite(db: Db, settings: Settings, m: Inbound, w: UserWrite) {
    NormalizeKey(m.senderKey) == NormalizeKey(w.key) || SenderIsBootstrap(settings, db.genesis, m.senderKey)
  }

  predicate IsGenesisOperator(g: GenesisRow, key: string) {
    g.complete && g.bootstrapKey.Some? && NormalizeKey(key) == NormalizeKey(g.bootstrapKey.value)
  }

  /** The genesis row mirrors the operator's image. */
  function MirrorImage(g: GenesisRow, w: UserWrite): GenesisRow {
    if w.SetImage? && IsGenesisOperator(g, w.key) then g.(operatorImage := w.image, updatedAt := w.at) else g
  }

  function WriteUser(db: Db, settings: Settings, m: Inbound, parsed: Result<UserWrite, ErrorCode>): (Db, Result<Reply, ErrorCode>) {
    match parsed
    case Failure(e) => (db, Failure(e))
    case Success(w) =>
      if !MayWrite(db, settings, m, w) then (db, Failure(Unauthorized))
      else (db.(users := ApplyWrite(db.users, w), genesis := MirrorImage(db.genesis, w)), Success(WriteReply(w)))
  }

  function StrOrNull(s: Option<string>): JsonValue { if s.Some? then JStr(s.value) else Null }

  function WriteReply(w: UserWrite): Reply {
    match w
    case SetImage(key, handle, image, _) =>
      Reply("USER_PROFILE_IMAGE_UPDATED", ObjectOf([
        Pair("user_handle", StrOrNull(handle)), Pair("user_signing_public_key_hex", JStr(NormalizeKey(key))),
        Pair("profile_image_stored", JBool(image.Some?))]))
    case SetDescription(key, handle, description, _) =>
      Reply("USER_DESCRIPTION_UPDATED", ObjectOf([
        Pair("user_handle", StrOrNull(handle)), Pair("user_signing_public_key_hex", JStr(NormalizeKey(key))),
        Pair("description", StrOrNull(description))]))
  }

  // ---- the steps --------------------------------------------------------------------

  method UpsertUserRow(conn: Connection, lookup: string, w: UserWrite)
    modifies conn`working
    ensures conn.working == old(conn.working).(users := ApplyTo(old(conn.working).users, w, lookup))
  {
    match w
    case SetImage(key, _, image, at) =>
      conn.working := conn.working.(users := UpsertImage(conn.working.users, lookup, image, NormalizeKey(key), at));
    case SetDescription(key, _, description, at) =>
      conn.working := conn.working.(users := UpsertDescription(conn.working.users, lookup, description, NormalizeKey(key), at));
  }

  method HandleWriteUser(conn: Connection, settings: Settings, m: Inbound, parsed: Result<UserWrite, ErrorCode>)
    returns (r: Result<Reply, ErrorCode>)
    modifies conn`working
    ensures (conn.working, r) == WriteUser(old(conn.working), settings, m, parsed)
  {
    hide KeyLookup, HandleLookup, ApplyTo, WriteReply, MayWrite, IsGenesisOperator;
    var w :- parsed;
    if !MayWrite(conn.working, settings, m, w) { return Failure(Unauthorized); }
    UpsertUserRow(conn, KeyLookup(w.key), w);
    if w.handle.Some? {
      UpsertUserRow(conn, HandleLookup(w.handle.value), w);
    }
    if w.SetImage? && IsGenesisOperator(conn.working.genesis, w.key) {
      SetGenesis(conn, conn.working.genesis.(operatorImage := w.image, updatedAt := w.at));
    }
    return Success(WriteReply(w));
  }

  // ---- reads --------------------------------------------------------------------------

  /** `bool(str(p.get(key, "")).strip())`: only a missing or blank text field is absent. */
  predicate Given(p: JsonValue, key: string) {
    match Field(p, key)
    case None => false
    case Some(Str(s)) => Strip(s) != ""
    case _ => true
  }

  datatype UserQuery = ByHandle(handle: string) | ByKey(key: string)

  function ParseUserQuery(p: JsonValue): Result<UserQuery, ErrorCode> {
    if Given(p, "user_handle") == Given(p, "user_signing_public_key_hex") then Failure(PayloadInvalid)
    else if Given(p, "user_handle") then
      var raw :- RequireStr(p, "user_handle");
      var h :- NormalizeHandle(raw);
      Success(ByHandle(h))
    else
      var key :- RequireKey(p, "user_signing_public_key_hex");
      Success(ByKey(key))
  }

  function QueryLookup(q: UserQuery): string {
    match q case ByHandle(h) => HandleLookup(h) case ByKey(k) => KeyLookup(k)
  }

  function ImageReply(handle: Option<string>, key: string, image: Option<Image>, platform: Platform, source: string): Reply {
    Reply("USER_PROFILE_IMAGE_RETURNED", ObjectOf([
      Pair("user_handle", StrOrNull(handle)), Pair("user_signing_public_key_hex", JStr(key)),
      Pair("profile_image_base64", if image.Some? && image.value.bytes != "" then JStr(platform.encodeImage(image.value.bytes)) else Null),
      Pair("profile_image_mime", if image.Some? then JStr(image.value.mime) else Null), Pair("source", JStr(source))]))
  }

  function GetUserImage(db: Db, platform: Platform, m: Inbound): Result<Reply, ErrorCode> {
    var q :- ParseUserQuery(m.payload);
    if QueryLookup(q) in db.users then
      var row := db.users[QueryLookup(q)];
      match q
      case ByHandle(h) => Success(ImageReply(Some(h), row.signingKey, row.image, platform, "entity"))
      case ByKey(k) => Success(ImageReply(None, k, row.image, platform, "entity"))
    else
      var g := db.genesis;
      var display := if g.displayName.Some? then Some(Lower(Strip(g.displayName.value))) else None;
      var matches := g.complete && g.bootstrapKey.Some?
                     && match q
                        case ByKey(k) => NormalizeKey(k) == NormalizeKey(g.bootstrapKey.value)
                        case ByHandle(h) => display == Some(h);
      if matches then Success(ImageReply(display, NormalizeKey(g.bootstrapKey.value), g.operatorImage, platform, "genesis"))
      else Failure(IdentityNotFound)
  }

  function GetUserDescription(db: Db, m: Inbound): Result<Reply, ErrorCode> {
    var q :- ParseUserQuery(m.payload);
    if QueryLookup(q) !in db.users then Failure(IdentityNotFound)
    else
      var row := db.users[QueryLookup(q)];
      Success(Reply("USER_DESCRIPTION_RETURNED", ObjectOf([
        Pair("user_handle", match q case ByHandle(h) => JStr(h) case ByKey(_) => Null),
        Pair("user_signing_public_key_hex", match q case ByHandle(_) => JStr(row.signingKey) case ByKey(k) => JStr(k)),
        Pair("description", StrOrNull(row.description)), Pair("source", JStr("entity"))])))
  }

  /** Once a key has written anything, its public reads return the last image and the last description it wrote. */
  lemma ReadsReturnLastWrites(db: Db, platform: Platform, writes: seq<UserWrite>, m: Inbound, key: string)
    requires db.users == ApplyAll(writes) && Wrote(writes, key)
    requires ParseUserQuery(m.payload) == Success(ByKey(key))
    ensures GetUserImage(db, platform, m) == Success(ImageReply(None, key, LastImage(writes, key), platform, "entity"))
    ensures
      var r := GetUserDescription(db, m);
      r.Success? && Field(r.value.payload, "description") == Some(StrOrNull(LastDescription(writes, key)))
  {
    KeyRowIsLastWrites(writes, key);
    hide ParseUserQuery, KeyLookup, ImageReply, NormalizeKey, Find, Dict, LastImage, LastDescription, ApplyAll, Wrote;
    var row := db.users[KeyLookup(key)];
    var pairs := [
      Pair("user_handle", Null), Pair("user_signing_public_key_hex", JStr(key)),
      Pair("description", StrOrNull(row.description)), Pair("source", JStr("entity"))];
    assert GetUserDescription(db, m) == Success(Reply("USER_DESCRIPTION_RETURNED", ObjectOf(pairs)));
    FindDict(pairs, 2);
  }
}
