// Tables, settings, platform functions and the one shared connection.
module Database {
  import opened Wrappers
  import opened Errors
  import opened Text
  import opened Json
  import opened JsonRoundTrip
  import opened Dials

  datatype Settings = Settings(
    bootstrapKeys: seq<string>, devMode: bool,
    maxBodyBytes: nat, maxPayloadBytes: nat,
    maxExpiryWindow: nat, futureSkew: nat, replayWindow: nat,
    genesisAllowed: bool, resetAllowed: bool)

  datatype DedupRow = DedupRow(fingerprint: string, resultSummary: string, firstSeenAt: int)

  datatype NameRow = NameRow(
    resolvedId: string, routeJson: Option<string>, metadataJson: Option<string>, createdAt: int)

  datatype ModuleRow = ModuleRow(
    moduleName: string, version: string, routeJson: string, capabilitiesJson: Option<string>,
    metadataJson: Option<string>, signingKey: string, registeredBy: string, registeredAt: int)

  datatype CoreRoute = CoreRoute(routeJson: string, updatedAt: int)

  datatype GenesisRow = GenesisRow(
    complete: bool, bootstrapKey: Option<string>, displayName: Option<string>, rootLabel: Option<string>,
    operatorImage: Option<Image>, instanceId: Option<string>, updatedAt: int)

  datatype Image = Image(bytes: string, mime: string)

  datatype ChallengeRow = ChallengeRow(
    subjectKey: string, body: string, issuedAt: int, expiresAt: int, consumedAt: Option<int>)

  datatype UserRow = UserRow(
    image: Option<Image>, description: Option<string>, signingKey: string, updatedAt: int)

  datatype SnapshotRow = SnapshotRow(phase: string, detail: string, reportedAt: int)

  /** Every table. `modules` is keyed by the lower-cased name, which is what its queries compare. */
  datatype Db = Db(
    dedup: map<string, DedupRow>,
    names: map<string, NameRow>,
    modules: map<string, ModuleRow>,
    dials: seq<DialRow>,
    coreRoute: Option<CoreRoute>,
    genesis: GenesisRow,
    challenges: map<string, ChallengeRow>,
    users: map<string, UserRow>,
    snapshots: map<string, SnapshotRow>)

  /** A freshly migrated database. */
  const EMPTY_DB := Db(map[], map[], map[], [], None,
                      GenesisRow(false, None, None, None, None, None, 0), map[], map[], map[])

  /** A validated signed message. */
  datatype Inbound = Inbound(
    messageId: string, operation: string, senderId: string, senderKey: string, payload: JsonValue)

  /** Functions of the runtime the model does not look inside. */
  datatype Platform = Platform(
    sha256Hex: string -> string,
    verifySignature: (string, string, string) -> bool,  // public key hex, signed text, signature hex
    validKey: string -> bool,
    isoInstant: string -> Option<real>,
    stamp: real -> string,
    quoted: string -> string,  // Python's `repr` of a text
    decodeImage: string -> Option<string>,
    encodeImage: string -> string,
    // operations outside the model; of the modelled tables they write at most the wizard row's update time
    otherOperation: (Inbound, Db) -> Result<Reply, ErrorCode>)

  /** What a handler hands to the success envelope. */
  datatype Reply = Reply(code: string, payload: JsonValue)

  /** Python's `int()` on a clock reading: towards zero. */
  function PyInt(x: real): int {
    if x >= 0.0 then x.Floor else -((-x).Floor)
  }

  class Connection {
    var committed: Db
    var working: Db

    constructor (db: Db)
      ensures committed == db && working == db
    {
      committed := db;
      working := db;
    }

    method Commit()
      modifies this
      ensures committed == working == old(working)
    {
      committed := working;
    }

    method Rollback()
      modifies this
      ensures working == committed == old(committed)
    {
      working := committed;
    }
  }

  // ---- payload fields -------------------------------------------------------

  function Field(p: JsonValue, key: string): (r: Option<JsonValue>)
    ensures r == Get(p, key)
  {
    match Get(p, key)
    case None => None
    case Some(v) =>
      assert WellFormed(v) by {
        var i :| 0 <= i < |p.members| && p.members[i] == Member(key, v);
      }
      Some(v)
  }

  type JsonMember = m: Member | WellFormed(m.value) witness Member("", Null)

  function Pair(key: string, value: JsonValue): JsonMember { Member(key, value) }

  function JStr(s: string): JsonValue { Str(s) }

  function JInt(n: int): JsonValue { Int(n) }

  function JBool(b: bool): JsonValue { Bool(b) }

  /** An object literal of well-formed values. */
  function ObjectOf(pairs: seq<JsonMember>): JsonValue {
    DictWellFormed(pairs);
    Obj(Dict(pairs))
  }

  function ArrayOf(items: seq<JsonValue>): JsonValue { Arr(items) }

  /** `json.loads` of a stored column. */
  function Load(text: string): (r: Option<JsonValue>)
    ensures r == Parse(text)
  {
    ParseWellFormed(text);
    match Parse(text)
    case None => None
    case Some(v) => Some(v)
  }

  function RequireStr(p: JsonValue, key: string): (r: Result<string, ErrorCode>)
    ensures r.Success? ==> r.value != "" && Trimmed(r.value, IsPySpace)
  {
    match Field(p, key)
    case Some(Str(s)) =>
      TrimIsTrimmed(s, IsPySpace);
      if Strip(s) == "" then Failure(PayloadInvalid) else Success(Strip(s))
    case _ => Failure(PayloadInvalid)
  }

  function OptionalStr(p: JsonValue, key: string): Result<Option<string>, ErrorCode> {
    match Field(p, key)
    case None => Success(None)
    case Some(Null) => Success(None)
    case Some(Str(s)) => Success(Some(s))
    case _ => Failure(PayloadInvalid)
  }

  function OptionalDict(p: JsonValue, key: string): (r: Result<Option<JsonValue>, ErrorCode>) {
    match Field(p, key)
    case None => Success(None)
    case Some(Null) => Success(None)
    case Some(Obj(ms)) => Success(Field(p, key))
    case _ => Failure(PayloadInvalid)
  }

  function OptionalValue(p: JsonValue, key: string): Option<JsonValue> {
    match Field(p, key)
    case Some(Null) => None
    case v => v
  }

  function OptionalInt(p: JsonValue, key: string): Result<Option<int>, ErrorCode> {
    match Field(p, key)
    case None => Success(None)
    case Some(Null) => Success(None)
    case Some(Int(n)) => Success(Some(n))
    case _ => Failure(PayloadInvalid)
  }

  predicate IsLowerHex(s: string, length: nat) {
    |s| == length && forall i | 0 <= i < |s| :: IsDigit(s[i]) || 'a' <= s[i] <= 'f'
  }

  function OptionalKeyHex(p: JsonValue, key: string): Result<Option<string>, ErrorCode> {
    match Field(p, key)
    case None => Success(None)
    case Some(Null) => Success(None)
    case Some(Str(s)) =>
      if Strip(s) == "" then Failure(PayloadInvalid)
      else if IsLowerHex(Lower(Strip(s)), 64) then Success(Some(Lower(Strip(s))))
      else Failure(PublicKeyInvalid)
    case _ => Failure(PayloadInvalid)
  }

  // ---- bootstrap policy -----------------------------------------------------

  function NormalizeKey(key: string): string { Lower(Strip(key)) }

  /** `sender_is_effective_bootstrap` */
  predicate SenderIsBootstrap(settings: Settings, g: GenesisRow, senderKey: string) {
    (|settings.bootstrapKeys| == 0 && settings.devMode)
    || (exists i :: 0 <= i < |settings.bootstrapKeys| && NormalizeKey(settings.bootstrapKeys[i]) == NormalizeKey(senderKey))
    || (g.complete && g.bootstrapKey.Some? && g.bootstrapKey.value != ""
        && NormalizeKey(g.bootstrapKey.value) == NormalizeKey(senderKey))
  }
}
