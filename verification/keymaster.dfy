// Keymaster's unlocked sessions and the vault on disk: each request as a step on both.
module Keymaster {
  import opened Wrappers
  import opened KeymasterVault

  const IDLE_TIMEOUT := 1800.0
  const MAX_LIFETIME := 28800.0

  datatype Session = Session(profiles: seq<Profile>, created: real, lastSeen: real)

  datatype KeyState = KeyState(disk: Option<Envelope>, sessions: map<string, Session>)

  /** The successive readings of the monotonic clock within one request. */
  datatype Readings = Readings(t0: real, t1: real, t2: real, t3: real, t4: real, t5: real) {
    predicate Ordered() { t0 <= t1 <= t2 <= t3 <= t4 <= t5 }
  }

  /** Whether the file can be read and written during a request. */
  datatype Disk = Disk(readable: bool, writable: bool)

  /** What the random source and the calendar would put in a new profile. */
  datatype Fresh = Fresh(id: string, createdAt: string, seed: string)

  datatype Request =
    | Setup(pw1: string, pw2: string, io: Disk, sid: string, t: Readings)
    | Unlock(passphrase: string, io: Disk, sid: string, t: Readings)
    | NewIdentity(cookie: Option<string>, name: string, passphrase: string, io: Disk, made: Fresh, t: Readings)
    | Rename(cookie: Option<string>, profileId: string, name: string, passphrase: string, io: Disk, t: Readings)
    | Lock(cookie: Option<string>, t: Readings)
    | Page(cookie: Option<string>, t: Readings)

  datatype Outcome = ToSetup | ToUnlock | Error(status: nat) | Opened | Saved | Shown(profiles: seq<Profile>)

  // ---- the session table ------------------------------------------------------------

  predicate Expired(s: Session, now: real) { now - s.lastSeen > IDLE_TIMEOUT || now - s.created > MAX_LIFETIME }

  function Prune(sessions: map<string, Session>, now: real): map<string, Session> {
    map sid | sid in sessions && !Expired(sessions[sid], now) :: sessions[sid]
  }

  predicate Live(sessions: map<string, Session>, cookie: Option<string>, now: real) {
    cookie.Some? && cookie.value != "" && cookie.value in sessions && !Expired(sessions[cookie.value], now)
  }

  /** `resolve_unlocked_vault`: an expired session is dropped, a live one is touched. */
  function Resolved(sessions: map<string, Session>, cookie: Option<string>, now: real, touched: real): map<string, Session> {
    if Live(sessions, cookie, now) then sessions[cookie.value := sessions[cookie.value].(lastSeen := touched)]
    else if cookie.Some? && cookie.value != "" then sessions - {cookie.value}
    else sessions
  }

  /** `replace_session_vault`: every session gets the new profiles, the caller's is touched. */
  function Replaced(sessions: map<string, Session>, cookie: Option<string>, profiles: seq<Profile>, touched: real): map<string, Session> {
    map sid | sid in sessions :: Refreshed(sessions[sid], cookie == Some(sid), profiles, touched)
  }

  function Refreshed(s: Session, own: bool, profiles: seq<Profile>, touched: real): Session {
    Session(profiles, s.created, if own then touched else s.lastSeen)
  }

  function Bound(sessions: map<string, Session>, sid: string, profiles: seq<Profile>, t: Readings): map<string, Session> {
    Prune(sessions, t.t1)[sid := Session(profiles, t.t2, t.t3)]
  }

  // ---- requests ----------------------------------------------------------------------

  function ReadVault(disk: Option<Envelope>, io: Disk, passphrase: string, b: Base64): Option<seq<Profile>> {
    if io.readable then Unlocked(disk, passphrase, b) else None
  }

  function DoSetup(s: KeyState, pw1: string, pw2: string, io: Disk, sid: string, t: Readings, b: Base64): (KeyState, Outcome) {
    if s.disk.Some? || pw1 != pw2 || |pw1| < MIN_PASSPHRASE then (s, Error(400))
    else if !io.writable then (s, Error(500))
    else (KeyState(Some(Seal(pw1, Payload([], b))), Bound(s.sessions, sid, [], t)), Opened)
  }

  function DoUnlock(s: KeyState, passphrase: string, io: Disk, sid: string, t: Readings, b: Base64): (KeyState, Outcome) {
    if s.disk.None? then (s, ToSetup)
    else match ReadVault(s.disk, io, passphrase, b)
      case None => (s, Error(401))
      case Some(profiles) => (s.(sessions := Bound(s.sessions, sid, profiles, t)), Opened)
  }

  /** Write the file, then hand the new profiles to every session; a failed write changes neither. */
  function Save(s: KeyState, cookie: Option<string>, passphrase: string, profiles: seq<Profile>, io: Disk, t: Readings, b: Base64)
    : (KeyState, Outcome)
  {
    if !io.writable then (s, Error(500))
    else (KeyState(Some(Seal(passphrase, Payload(profiles, b))), Replaced(s.sessions, cookie, profiles, t.t5)), Saved)
  }

  function MadeProfile(made: Fresh, name: string): Profile { Profile(made.id, name, made.createdAt, made.seed) }

  function DoNewIdentity(
    s: KeyState, cookie: Option<string>, name: string, passphrase: string, io: Disk, made: Fresh, t: Readings, b: Base64)
    : (KeyState, Outcome)
  {
    var seen := s.(sessions := Resolved(s.sessions, cookie, t.t1, t.t2));
    if !Live(s.sessions, cookie, t.t1) then (seen, ToUnlock)
    else if DisplayName(name).None? then (seen, Error(400))
    else match ReadVault(s.disk, io, passphrase, b)
      case None => (seen, Error(401))
      case Some(profiles) => Save(seen, cookie, passphrase, profiles + [MadeProfile(made, DisplayName(name).value)], io, t, b)
  }

  function DoRename(
    s: KeyState, cookie: Option<string>, profileId: string, name: string, passphrase: string, io: Disk, t: Readings, b: Base64)
    : (KeyState, Outcome)
  {
    var once := s.(sessions := Resolved(s.sessions, cookie, t.t1, t.t2));
    if !Live(s.sessions, cookie, t.t1) then (once, ToUnlock)
    else
      var seen := s.(sessions := Resolved(once.sessions, cookie, t.t3, t.t4));
      if !Live(once.sessions, cookie, t.t3) then (seen, ToUnlock)
      else
        var mine := seen.sessions[cookie.value].profiles;
        if IndexOfId(mine, profileId) == |mine| then (seen, Error(404))
        else if DisplayName(name).None? then (seen, Error(400))
        else RenameStored(seen, cookie, profileId, name, passphrase, io, t, b)
  }

  /** Rename in the profiles read back from disk, not in the session's copy. */
  function RenameStored(
    s: KeyState, cookie: Option<string>, profileId: string, name: string, passphrase: string, io: Disk, t: Readings, b: Base64)
    : (KeyState, Outcome)
    requires DisplayName(name).Some?
  {
    match ReadVault(s.disk, io, passphrase, b)
    case None => (s, Error(401))
    case Some(profiles) =>
      if IndexOfId(profiles, profileId) == |profiles| then (s, Error(404))
      else Save(s, cookie, passphrase, Renamed(profiles, profileId, DisplayName(name).value), io, t, b)
  }

  function DoLock(s: KeyState, cookie: Option<string>): (KeyState, Outcome) {
    (if cookie.Some? && cookie.value != "" then s.(sessions := s.sessions - {cookie.value}) else s, ToUnlock)
  }

  /** Any page that only needs an unlocked session. */
  function DoPage(s: KeyState, cookie: Option<string>, t: Readings): (KeyState, Outcome) {
    (s.(sessions := Resolved(s.sessions, cookie, t.t1, t.t2)),
     if Live(s.sessions, cookie, t.t1) then Shown(s.sessions[cookie.value].profiles) else ToUnlock)
  }

  /** One request, after the middleware has dropped expired sessions. */
  function Step(before: KeyState, r: Request, b: Base64): (KeyState, Outcome) {
    var s := before.(sessions := Prune(before.sessions, r.t.t0));
    match r
    case Setup(pw1, pw2, io, sid, t) => DoSetup(s, pw1, pw2, io, sid, t, b)
    case Unlock(passphrase, io, sid, t) => DoUnlock(s, passphrase, io, sid, t, b)
    case NewIdentity(cookie, name, passphrase, io, made, t) => DoNewIdentity(s, cookie, name, passphrase, io, made, t, b)
    case Rename(cookie, profileId, name, passphrase, io, t) => DoRename(s, cookie, profileId, name, passphrase, io, t, b)
    case Lock(cookie, _) => DoLock(s, cookie)
    case Page(cookie, t) => DoPage(s, cookie, t)
  }

  // ---- the application -----------------------------------------------------------------

  class SessionRecord {
    var vault: seq<Profile>
    const created: real
    var lastSeen: real

    constructor (vault: seq<Profile>, created: real, lastSeen: real)
      ensures this.vault == vault && this.created == created && this.lastSeen == lastSeen
    {
      this.vault := vault;
      this.created := created;
      this.lastSeen := lastSeen;
    }

    function View(): Session
      reads this
    {
      Session(vault, created, lastSeen)
    }

    method Touch(now: real)
      modifies this`lastSeen
      ensures lastSeen == now
    {
      lastSeen := now;
    }

    predicate IsExpired(now: real)
      reads this
    {
      now - lastSeen > IDLE_TIMEOUT || now - created > MAX_LIFETIME
    }
  }

  class App {
    var disk: Option<Envelope>
    var sessions: map<string, SessionRecord>
    const base64: Base64

    constructor (base64: Base64)
      ensures State() == KeyState(None, map[]) && Valid() && this.base64 == base64
    {
      this.base64 := base64;
      disk := None;
      sessions := map[];
    }

    /** No two session ids share a record. */
    ghost predicate Valid()
      reads this`sessions
    {
      forall x, y | x in sessions && y in sessions && sessions[x] == sessions[y] :: x == y
    }

    function Table(): map<string, Session>
      reads this`sessions, sessions.Values
    {
      map sid | sid in sessions :: sessions[sid].View()
    }

    function State(): KeyState
      reads this`disk, this`sessions, sessions.Values
    {
      KeyState(disk, Table())
    }

    /** Drop every session past its idle or total lifetime, one by one. */
    method PruneExpiredSessions(now: real)
      requires Valid()
      modifies this`sessions
      ensures Valid() && State() == KeyState(old(disk), Prune(old(Table()), now))
      ensures forall sid | sid in sessions :: sid in old(sessions) && sessions[sid] == old(sessions)[sid]
    {
      ghost var before := Table();
      var dead := set sid | sid in sessions && sessions[sid].IsExpired(now);
      ghost var all := dead;
      while dead != {}
        invariant dead <= all && Valid()
        invariant sessions == old(sessions) - (all - dead)
        decreases |dead|
      {
        var sid :| sid in dead;
        sessions := sessions - {sid};
        dead := dead - {sid};
      }
      TableIsPruned(before, now);
    }

    lemma TableIsPruned(before: map<string, Session>, now: real)
      requires forall sid | sid in sessions :: sid in before && sessions[sid].View() == before[sid] && !Expired(before[sid], now)
      requires forall sid | sid in before && !Expired(before[sid], now) :: sid in sessions
      ensures Table() == Prune(before, now)
    {
      hide Expired;
      forall sid ensures sid in Table() <==> sid in Prune(before, now) { }
    }

    method ResolveUnlockedVault(cookie: Option<string>, now: real, touched: real) returns (vault: Option<seq<Profile>>)
      requires Valid()
      modifies this`sessions, sessions.Values
      ensures Valid() && State() == KeyState(old(disk), Resolved(old(Table()), cookie, now, touched))
      ensures vault == if Live(old(Table()), cookie, now) then Some(old(Table())[cookie.value].profiles) else None
      ensures sessions.Values <= old(sessions).Values
    {
      ghost var before := Table();
      if cookie.None? || cookie.value == "" {
        return None;
      }
      var sid := cookie.value;
      if sid !in sessions {
        assert Table() == before - {sid};
        return None;
      }
      var rec := sessions[sid];
      if rec.IsExpired(now) {
        sessions := sessions - {sid};
        assert Table() == before - {sid};
        return None;
      }
      rec.Touch(touched);
      assert Table() == before[sid := before[sid].(lastSeen := touched)];
      return Some(rec.vault);
    }

    method NewSessionId(sid: string, profiles: seq<Profile>, t: Readings)
      requires Valid()
      modifies this`sessions
      ensures Valid() && State() == KeyState(old(disk), Bound(old(Table()), sid, profiles, t))
      ensures forall r | r in sessions.Values :: r in old(sessions).Values || fresh(r)
    {
      PruneExpiredSessions(t.t1);
      ghost var pruned := Table();
      var rec := new SessionRecord(profiles, t.t2, t.t3);
      sessions := sessions[sid := rec];
      assert Table() == pruned[sid := Session(profiles, t.t2, t.t3)];
    }

    /** After a disk write: every session shares the new profiles, only the caller's is touched. */
    method ReplaceSessionVault(cookie: Option<string>, profiles: seq<Profile>, touched: real)
      requires Valid()
      modifies sessions.Values
      ensures Valid() && State() == KeyState(old(disk), Replaced(old(Table()), cookie, profiles, touched))
    {
      hide Refreshed, Replaced;
      ghost var before := Table();
      var todo := sessions.Keys;
      while todo != {}
        invariant todo <= sessions.Keys
        invariant forall sid | sid in todo :: sessions[sid].View() == before[sid]
        invariant forall sid | sid in sessions && sid !in todo ::
                    sessions[sid].View() == Refreshed(before[sid], cookie == Some(sid), profiles, touched)
        decreases |todo|
      {
        var sid :| sid in todo;
        RefreshRecord(sessions[sid], cookie == Some(sid), profiles, touched);
        todo := todo - {sid};
      }
      TableIsReplaced(before, cookie, profiles, touched);
    }

    lemma TableIsReplaced(before: map<string, Session>, cookie: Option<string>, profiles: seq<Profile>, touched: real)
      requires before.Keys == sessions.Keys
      requires forall sid | sid in sessions :: sessions[sid].View() == Refreshed(before[sid], cookie == Some(sid), profiles, touched)
      ensures Table() == Replaced(before, cookie, profiles, touched)
    {
      hide Refreshed;
    }

    static method RefreshRecord(rec: SessionRecord, own: bool, profiles: seq<Profile>, touched: real)
      modifies rec
      ensures rec.View() == Refreshed(old(rec.View()), own, profiles, touched)
    {
      rec.vault := profiles;
      if own { rec.Touch(touched); }
    }

    method WriteVault(io: Disk, passphrase: string, profiles: seq<Profile>) returns (ok: bool)
      modifies this`disk
      ensures ok <==> io.writable
      ensures disk == if ok then Some(Seal(passphrase, Payload(profiles, base64))) else old(disk)
    {
      var inner := ProfilesToInnerPayload(profiles, base64);
      ok := io.writable;
      if ok { disk := Some(Seal(passphrase, inner)); }
    }

    method LoadProfiles(io: Disk, passphrase: string) returns (profiles: Option<seq<Profile>>)
      ensures profiles == ReadVault(disk, io, passphrase, base64)
    {
      hide ReadPayload;
      if !io.readable || disk.None? { return None; }
      var inner := Decrypt(passphrase, disk.value);
      if inner.None? { return None; }
      profiles := InnerPayloadToProfiles(inner.value, base64);
    }

    method SetupPost(pw1: string, pw2: string, io: Disk, sid: string, t: Readings) returns (outcome: Outcome)
      requires Valid()
      modifies this
      ensures Valid() && (State(), outcome) == DoSetup(old(State()), pw1, pw2, io, sid, t, base64)
      ensures forall r | r in sessions.Values :: r in old(sessions).Values || fresh(r)
    {
      hide Bound, Seal, Payload;
      if disk.Some? || pw1 != pw2 || |pw1| < MIN_PASSPHRASE { return Error(400); }
      var ok := WriteVault(io, pw1, []);
      if !ok { return Error(500); }
      NewSessionId(sid, [], t);
      return Opened;
    }

    method UnlockPost(passphrase: string, io: Disk, sid: string, t: Readings) returns (outcome: Outcome)
      requires Valid()
      modifies this`sessions
      ensures Valid() && (State(), outcome) == DoUnlock(old(State()), passphrase, io, sid, t, base64)
      ensures forall r | r in sessions.Values :: r in old(sessions).Values || fresh(r)
    {
      hide Bound, ReadVault;
      if disk.None? { return ToSetup; }
      var profiles := LoadProfiles(io, passphrase);
      if profiles.None? { return Error(401); }
      NewSessionId(sid, profiles.value, t);
      return Opened;
    }

    method SaveProfiles(cookie: Option<string>, passphrase: string, profiles: seq<Profile>, io: Disk, t: Readings)
      returns (outcome: Outcome)
      requires Valid()
      modifies this`disk, sessions.Values
      ensures Valid() && (State(), outcome) == Save(old(State()), cookie, passphrase, profiles, io, t, base64)
    {
      hide Seal, Payload, Replaced;
      var ok := WriteVault(io, passphrase, profiles);
      if !ok { return Error(500); }
      ReplaceSessionVault(cookie, profiles, t.t5);
      return Saved;
    }

    method IdentitiesNewPost(cookie: Option<string>, name: string, passphrase: string, io: Disk, made: Fresh, t: Readings)
      returns (outcome: Outcome)
      requires Valid()
      modifies this, sessions.Values
      ensures Valid() && (State(), outcome) == DoNewIdentity(old(State()), cookie, name, passphrase, io, made, t, base64)
    {
      hide Resolved, Live, Save, ReadVault, DisplayName;
      var vault := ResolveUnlockedVault(cookie, t.t1, t.t2);
      if vault.None? { return ToUnlock; }
      if DisplayName(name).None? { return Error(400); }
      var profiles := LoadProfiles(io, passphrase);
      if profiles.None? { return Error(401); }
      outcome := SaveProfiles(cookie, passphrase, profiles.value + [MadeProfile(made, DisplayName(name).value)], io, t);
    }

    method LockPost(cookie: Option<string>) returns (outcome: Outcome)
      requires Valid()
      modifies this`sessions
      ensures Valid() && (State(), outcome) == DoLock(old(State()), cookie)
    {
      ghost var before := Table();
      if cookie.Some? && cookie.value != "" {
        sessions := sessions - {cookie.value};
        assert Table() == before - {cookie.value};
      }
      return ToUnlock;
    }

    method IdentityRenamePost(cookie: Option<string>, profileId: string, name: string, passphrase: string, io: Disk, t: Readings)
      returns (outcome: Outcome)
      requires Valid()
      modifies this, sessions.Values
      ensures Valid() && (State(), outcome) == DoRename(old(State()), cookie, profileId, name, passphrase, io, t, base64)
    {
      hide RenameStored, DisplayName, Prune, Expired;
      var first := ResolveUnlockedVault(cookie, t.t1, t.t2);
      if first.None? { return ToUnlock; }
      var vault := ResolveUnlockedVault(cookie, t.t3, t.t4);
      if vault.None? { return ToUnlock; }
      var mine := FindProfile(vault.value, profileId);
      if mine.None? { return Error(404); }
      if DisplayName(name).None? { return Error(400); }
      outcome := RenameInVault(cookie, profileId, name, passphrase, io, t);
    }

    method RenameInVault(cookie: Option<string>, profileId: string, name: string, passphrase: string, io: Disk, t: Readings)
      returns (outcome: Outcome)
      requires Valid() && DisplayName(name).Some?
      modifies this`disk, sessions.Values
      ensures Valid() && (State(), outcome) == RenameStored(old(State()), cookie, profileId, name, passphrase, io, t, base64)
    {
      hide Save, ReadVault, DisplayName, Renamed;
      var loaded := LoadProfiles(io, passphrase);
      if loaded.None? { return Error(401); }
      var profiles := new Profile[|loaded.value|](i requires 0 <= i < |loaded.value| => loaded.value[i]);
      assert profiles[..] == loaded.value;
      var renamed := RenameProfileInList(profiles, profileId, name);
      if !renamed { return Error(404); }
      outcome := SaveProfiles(cookie, passphrase, profiles[..], io, t);
    }

    method PageGet(cookie: Option<string>, t: Readings) returns (outcome: Outcome)
      requires Valid()
      modifies this`sessions, sessions.Values
      ensures Valid() && (State(), outcome) == DoPage(old(State()), cookie, t)
    {
      hide Resolved;
      var vault := ResolveUnlockedVault(cookie, t.t1, t.t2);
      return if vault.Some? then Shown(vault.value) else ToUnlock;
    }

    /** The middleware, then the handler of the request. */
    method Serve(r: Request) returns (outcome: Outcome)
      requires Valid()
      modifies this, sessions.Values
      ensures Valid() && (State(), outcome) == Step(old(State()), r, base64)
    {
      hide Prune, DoSetup, DoUnlock, DoNewIdentity, DoRename, DoLock, DoPage;
      PruneExpiredSessions(r.t.t0);
      match r {
        case Setup(pw1, pw2, io, sid, t) => outcome := SetupPost(pw1, pw2, io, sid, t);
        case Unlock(passphrase, io, sid, t) => outcome := UnlockPost(passphrase, io, sid, t);
        case NewIdentity(cookie, name, passphrase, io, made, t) => outcome := IdentitiesNewPost(cookie, name, passphrase, io, made, t);
        case Rename(cookie, profileId, name, passphrase, io, t) =>
          outcome := IdentityRenamePost(cookie, profileId, name, passphrase, io, t);
        case Lock(cookie, t) => outcome := LockPost(cookie);
        case Page(cookie, t) => outcome := PageGet(cookie, t);
      }
    }
  }
}
