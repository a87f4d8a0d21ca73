// Keymaster's vault: profiles, their JSON payload, and the sealed file.
module KeymasterVault {
  import opened Wrappers
  import opened Text
  import opened Json
  import opened JsonRoundTrip
  import opened Canonical

  const SEED_LENGTH := 32
  const MIN_PASSPHRASE := 12
  const MAX_DISPLAY_NAME := 80

  datatype Profile = Profile(id: string, displayName: string, createdAt: string, seed: string)

  /** Base64 of key seeds. */
  datatype Base64 = Base64(encode: string -> string, decode: string -> Option<string>)

  ghost predicate RoundTrips(b: Base64) { forall s: string :: |s| == SEED_LENGTH ==> b.decode(b.encode(s)) == Some(s) }

  predicate SeedsOk(ps: seq<Profile>) { forall i | 0 <= i < |ps| :: |ps[i].seed| == SEED_LENGTH }

  // ---- payload ----------------------------------------------------------------------

  function Entry(p: Profile, b: Base64): Json {
    Obj([Member("id", Str(p.id)), Member("display_name", Str(p.displayName)), Member("created_at", Str(p.createdAt)),
         Member("ed25519_seed_b64", Str(b.encode(p.seed)))])
  }

  function Entries(ps: seq<Profile>, b: Base64): (r: seq<Json>)
    ensures |r| == |ps| && forall i | 0 <= i < |ps| :: r[i] == Entry(ps[i], b)
  {
    seq(|ps|, i requires 0 <= i < |ps| => Entry(ps[i], b))
  }

  function Payload(ps: seq<Profile>, b: Base64): Json { Obj([Member("profiles", Arr(Entries(ps, b)))]) }

  function TextField(item: Json, key: string): Option<string> {
    match Get(item, key) case Some(Str(s)) => Some(s) case _ => None
  }

  function ReadProfile(item: Json, b: Base64): Option<Profile> {
    var id :- TextField(item, "id");
    var name :- TextField(item, "display_name");
    var created :- TextField(item, "created_at");
    var encoded :- TextField(item, "ed25519_seed_b64");
    var seed :- b.decode(encoded);
    if |seed| != SEED_LENGTH then None else Some(Profile(id, name, created, seed))
  }

  function ReadAll(items: seq<Json>, b: Base64): Option<seq<Profile>> {
    if |items| == 0 then Some([])
    else
      var front :- ReadAll(items[..|items| - 1], b);
      var last :- ReadProfile(items[|items| - 1], b);
      Some(front + [last])
  }

  /** `inner_payload_to_profiles`; none stands for its error. */
  function ReadPayload(inner: Json, b: Base64): Option<seq<Profile>> {
    match Get(inner, "profiles")
    case Some(Arr(items)) => ReadAll(items, b)
    case _ => None
  }

  method InnerPayloadToProfiles(inner: Json, b: Base64) returns (out: Option<seq<Profile>>)
    ensures out == ReadPayload(inner, b)
  {
    hide ReadProfile, Get;
    var raw := Get(inner, "profiles");
    if raw.None? || !raw.value.Arr? { return None; }
    var items := raw.value.items;
    var profiles := [];
    for i := 0 to |items|
      invariant ReadAll(items[..i], b) == Some(profiles)
    {
      assert items[..i + 1][..i] == items[..i];
      var p := ReadProfile(items[i], b);
      if p.None? {
        ReadAllFails(items, b, i);
        return None;
      }
      profiles := profiles + [p.value];
    }
    assert items[..|items|] == items;
    return Some(profiles);
  }

  lemma {:induction false} ReadAllFails(items: seq<Json>, b: Base64, i: nat)
    requires i < |items| && ReadProfile(items[i], b).None?
    ensures ReadAll(items, b).None?
  {
    hide ReadProfile;
    if i < |items| - 1 { ReadAllFails(items[..|items| - 1], b, i); }
  }

  method ProfilesToInnerPayload(profiles: seq<Profile>, b: Base64) returns (inner: Json)
    ensures inner == Payload(profiles, b)
  {
    var rows := [];
    for i := 0 to |profiles|
      invariant |rows| == i && forall j | 0 <= j < i :: rows[j] == Entry(profiles[j], b)
    {
      rows := rows + [Entry(profiles[i], b)];
    }
    assert rows == Entries(profiles, b);
    return Obj([Member("profiles", Arr(rows))]);
  }

  // ---- the payload survives the round trip ------------------------------------------------

  lemma EntryFields(p: Profile, b: Base64)
    ensures
      var e := Entry(p, b);
      && WellFormed(e) && Get(e, "id") == Some(Str(p.id)) && Get(e, "display_name") == Some(Str(p.displayName))
      && Get(e, "created_at") == Some(Str(p.createdAt)) && Get(e, "ed25519_seed_b64") == Some(Str(b.encode(p.seed)))
  {
    hide Find;
    var ms := Entry(p, b).members;
    assert |ms[0].key| == 2 && |ms[1].key| == 12 && |ms[2].key| == 10 && |ms[3].key| == 16;
    assert ms[0].key == "id" && ms[1].key == "display_name" && ms[2].key == "created_at" && ms[3].key == "ed25519_seed_b64";
    assert DistinctKeys(ms);
    forall i | 0 <= i < 4 ensures Find(ms, ms[i].key) == Some(ms[i].value) { FindIsMembership(ms, ms[i].key, ms[i].value); }
  }

  lemma EntryReads(p: Profile, b: Base64)
    requires RoundTrips(b) && |p.seed| == SEED_LENGTH
    ensures ReadProfile(Canon(Entry(p, b)), b) == Some(p)
  {
    hide Entry, Get, WellFormed;
    var e := Entry(p, b);
    EntryFields(p, b);
    GetOfCanon(e, "id");
    GetOfCanon(e, "display_name");
    GetOfCanon(e, "created_at");
    GetOfCanon(e, "ed25519_seed_b64");
  }

  lemma {:induction false} EntriesRead(ps: seq<Profile>, b: Base64)
    requires RoundTrips(b) && SeedsOk(ps)
    ensures ReadAll(CanonItems(Entries(ps, b)), b) == Some(ps)
  {
    hide Entry, ReadProfile, Canon;
    if |ps| > 0 {
      var front := ps[..|ps| - 1];
      EntriesRead(front, b);
      EntryReads(ps[|ps| - 1], b);
      assert CanonItems(Entries(ps, b))[..|ps| - 1] == CanonItems(Entries(front, b));
      assert front + [ps[|ps| - 1]] == ps;
    }
  }

  lemma PayloadReads(ps: seq<Profile>, b: Base64)
    requires RoundTrips(b) && SeedsOk(ps)
    ensures WellFormed(Payload(ps, b)) && ReadPayload(Canon(Payload(ps, b)), b) == Some(ps)
  {
    hide Entry, ReadProfile;
    EntriesRead(ps, b);
    forall i | 0 <= i < |ps| ensures WellFormed(Entries(ps, b)[i]) { EntryFields(ps[i], b); }
    var v := Payload(ps, b);
    assert Get(v, "profiles") == Some(Arr(Entries(ps, b)));
    GetOfCanon(v, "profiles");
  }

  // ---- the sealed file ------------------------------------------------------------------------

  /** An authenticated envelope: it opens under the passphrase it was sealed with, and under no other. */
  datatype Envelope = Envelope(passphrase: string, plaintext: string)

  function Seal(passphrase: string, inner: Json): Envelope { Envelope(passphrase, Render(Canon(inner), PythonAscii)) }

  function Decrypt(passphrase: string, e: Envelope): Option<Json> {
    if e.passphrase != passphrase then None
    else match Parse(e.plaintext)
      case Some(v) => if v.Obj? then Some(v) else None
      case None => None
  }

  /** Read the file, decrypt it and rebuild the profiles. */
  function Unlocked(disk: Option<Envelope>, passphrase: string, b: Base64): Option<seq<Profile>> {
    if disk.None? then None
    else match Decrypt(passphrase, disk.value)
      case None => None
      case Some(inner) => ReadPayload(inner, b)
  }

  /** Writing profiles and reading them back returns the same profiles, under the same passphrase only. */
  lemma SealedProfilesOpen(ps: seq<Profile>, passphrase: string, other: string, b: Base64)
    requires RoundTrips(b) && SeedsOk(ps)
    ensures
      var disk := Some(Seal(passphrase, Payload(ps, b)));
      Unlocked(disk, other, b) == if other == passphrase then Some(ps) else None
  {
    hide Payload, ReadPayload, Parse, Render, WellFormed;
    PayloadReads(ps, b);
    CanonWellFormed(Payload(ps, b));
    ParseOfRender(Canon(Payload(ps, b)), PythonAscii);
    PayloadIsObject(ps, b);
  }

  lemma PayloadIsObject(ps: seq<Profile>, b: Base64)
    ensures Payload(ps, b).Obj? && Canon(Payload(ps, b)).Obj?
  {
  }

  lemma {:induction false} ReadSeeds(items: seq<Json>, b: Base64)
    ensures ReadAll(items, b).Some? ==> SeedsOk(ReadAll(items, b).value)
  {
    if |items| > 0 { ReadSeeds(items[..|items| - 1], b); }
  }

  lemma UnlockedSeeds(disk: Option<Envelope>, passphrase: string, b: Base64)
    ensures Unlocked(disk, passphrase, b).Some? ==> SeedsOk(Unlocked(disk, passphrase, b).value)
  {
    hide Parse, ReadAll, Get;
    forall items: seq<Json> { ReadSeeds(items, b); }
  }

  // ---- names ------------------------------------------------------------------------------------

  function DisplayName(raw: string): Option<string> {
    if Strip(raw) == "" || |Strip(raw)| > MAX_DISPLAY_NAME then None else Some(Strip(raw))
  }

  /** The first profile with an id. */
  function IndexOfId(ps: seq<Profile>, id: string): (i: nat)
    ensures i <= |ps| && (forall j | 0 <= j < i :: ps[j].id != id) && (i < |ps| ==> ps[i].id == id)
  {
    if |ps| == 0 || ps[0].id == id then 0
    else
      var i := IndexOfId(ps[1..], id);
      assert forall j | 0 < j <= i && j < |ps| :: ps[j] == ps[1..][j - 1];
      i + 1
  }

  function Renamed(ps: seq<Profile>, id: string, name: string): seq<Profile> {
    var i := IndexOfId(ps, id);
    if i < |ps| then ps[i := ps[i].(displayName := name)] else ps
  }

  method FindProfile(ps: seq<Profile>, id: string) returns (found: Option<Profile>)
    ensures found == if IndexOfId(ps, id) < |ps| then Some(ps[IndexOfId(ps, id)]) else None
  {
    for i := 0 to |ps|
      invariant forall j | 0 <= j < i :: ps[j].id != id
    {
      if ps[i].id == id { return Some(ps[i]); }
    }
    return None;
  }

  /** Sets the display name of the matching profile in place; false when no profile has the id. */
  method RenameProfileInList(profiles: array<Profile>, id: string, newDisplayName: string) returns (renamed: bool)
    requires DisplayName(newDisplayName).Some?
    modifies profiles
    ensures profiles[..] == Renamed(old(profiles[..]), id, DisplayName(newDisplayName).value)
    ensures renamed <==> IndexOfId(old(profiles[..]), id) < profiles.Length
  {
    hide DisplayName;
    var name := DisplayName(newDisplayName).value;
    for i := 0 to profiles.Length
      invariant profiles[..] == old(profiles[..])
      invariant forall j | 0 <= j < i :: profiles[j].id != id
    {
      if profiles[i].id == id {
        assert IndexOfId(old(profiles[..]), id) == i;
        profiles[i] := profiles[i].(displayName := name);
        return true;
      }
    }
    return false;
  }
}
