// Whole Keymaster runs: sessions and disk agree, keys are never lost, and no session outlives its limits.
module KeymasterRuns {
  import opened Wrappers
  import opened Json
  import opened KeymasterVault
  import opened Keymaster

  /** One request, its outcome, and the state after it. */
  datatype Entry = Entry(request: Request, outcome: Outcome, after: KeyState)

  /** A run of a process that started with a file on disk, or none, and no sessions. */
  datatype Trace = Trace(disk: Option<Envelope>, base64: Base64, entries: seq<Entry>)

  /** The state before request `k`; the last one when `k` is the length. */
  function Before(t: Trace, k: nat): KeyState
    requires k <= |t.entries|
  {
    if k == 0 then KeyState(t.disk, map[]) else t.entries[k - 1].after
  }

  predicate Recorded(t: Trace, k: nat)
    requires k < |t.entries|
  {
    (t.entries[k].after, t.entries[k].outcome) == Step(Before(t, k), t.entries[k].request, t.base64)
  }

  predicate IsRun(t: Trace) { forall k: nat {:trigger Recorded(t, k)} | k < |t.entries| :: Recorded(t, k) }

  /** The run a sequence of requests makes. */
  function Play(disk: Option<Envelope>, b: Base64, requests: seq<Request>): Trace {
    if |requests| == 0 then Trace(disk, b, [])
    else
      var front := Play(disk, b, requests[..|requests| - 1]);
      var (after, outcome) := Step(Before(front, |front.entries|), requests[|requests| - 1], b);
      Trace(disk, b, front.entries + [Entry(requests[|requests| - 1], outcome, after)])
  }

  /** Every request sequence has a run. */
  lemma {:induction false} PlayIsRun(disk: Option<Envelope>, b: Base64, requests: seq<Request>)
    ensures
      var t := Play(disk, b, requests);
      && IsRun(t) && t.disk == disk && t.base64 == b && |t.entries| == |requests|
      && forall k | 0 <= k < |requests| :: t.entries[k].request == requests[k]
  {
    hide Step;
    if |requests| > 0 {
      var front := Play(disk, b, requests[..|requests| - 1]);
      PlayIsRun(disk, b, requests[..|requests| - 1]);
      var t := Play(disk, b, requests);
      forall k: nat | k < |requests| ensures Recorded(t, k) {
        assert Before(t, k) == Before(front, k);
        if k < |front.entries| { assert Recorded(front, k) && t.entries[k] == front.entries[k]; }
      }
    }
  }

  lemma EntryIsStep(t: Trace, k: nat)
    requires IsRun(t) && k < |t.entries|
    ensures (Before(t, k + 1), t.entries[k].outcome) == Step(Before(t, k), t.entries[k].request, t.base64)
  {
    hide Step;
    assert Recorded(t, k);
  }

  /** New keys have the length of an Ed25519 seed. */
  predicate SeedOk(r: Request) { r.NewIdentity? ==> |r.made.seed| == SEED_LENGTH }

  predicate SeedsInRun(t: Trace) { forall i | 0 <= i < |t.entries| :: SeedOk(t.entries[i].request) }

  // ---- sessions and disk --------------------------------------------------------------

  /** The profiles on disk, opened with the vault's own passphrase. */
  function OnDisk(s: KeyState, b: Base64): Option<seq<Profile>> {
    if s.disk.None? then None else Unlocked(s.disk, s.disk.value.passphrase, b)
  }

  /** Every session holds exactly the profiles on disk. */
  predicate InSync(s: KeyState, b: Base64) {
    forall sid | sid in s.sessions :: OnDisk(s, b) == Some(s.sessions[sid].profiles)
  }

  /** The part of a profile that never changes. */
  datatype Key = Key(id: string, createdAt: string, seed: string)

  function KeysOf(ps: seq<Profile>): (r: seq<Key>)
    ensures |r| == |ps| && forall i | 0 <= i < |ps| :: r[i] == Key(ps[i].id, ps[i].createdAt, ps[i].seed)
  {
    seq(|ps|, i requires 0 <= i < |ps| => Key(ps[i].id, ps[i].createdAt, ps[i].seed))
  }

  /** The passphrase stays, and keys are only ever appended. */
  predicate VaultKept(s: KeyState, s': KeyState, b: Base64) {
    && (s.disk.Some? ==> s'.disk.Some? && s'.disk.value.passphrase == s.disk.value.passphrase)
    && (OnDisk(s, b).Some? ==> OnDisk(s', b).Some? && KeysOf(OnDisk(s, b).value) <= KeysOf(OnDisk(s', b).value))
  }

  /** A step's effect on the disk, given the profiles it wrote. */
  lemma WrittenOpens(s: KeyState, passphrase: string, ps: seq<Profile>, b: Base64)
    requires RoundTrips(b) && SeedsOk(ps) && s.disk == Some(Seal(passphrase, Payload(ps, b)))
    ensures OnDisk(s, b) == Some(ps) && s.disk.value.passphrase == passphrase
  {
    hide Payload, Unlocked, RoundTrips;
    SealedProfilesOpen(ps, passphrase, passphrase, b);
  }

  lemma OpenedIsOnDisk(s: KeyState, io: Disk, passphrase: string, b: Base64)
    requires ReadVault(s.disk, io, passphrase, b).Some?
    ensures s.disk.Some? && passphrase == s.disk.value.passphrase && OnDisk(s, b) == ReadVault(s.disk, io, passphrase, b)
    ensures SeedsOk(OnDisk(s, b).value)
  {
    hide ReadPayload, Parse;
    UnlockedSeeds(s.disk, passphrase, b);
  }

  lemma SaveKeeps(s: KeyState, cookie: Option<string>, passphrase: string, ps: seq<Profile>, io: Disk, t: Readings, b: Base64)
    requires RoundTrips(b) && SeedsOk(ps) && InSync(s, b)
    requires s.disk.Some? && passphrase == s.disk.value.passphrase && OnDisk(s, b).Some? && KeysOf(OnDisk(s, b).value) <= KeysOf(ps)
    ensures
      var s' := Save(s, cookie, passphrase, ps, io, t, b).0;
      InSync(s', b) && VaultKept(s, s', b)
  {
    hide OnDisk, Payload, Seal, RoundTrips;
    if io.writable { WrittenOpens(Save(s, cookie, passphrase, ps, io, t, b).0, passphrase, ps, b); }
  }

  lemma SameDisk(s: KeyState, sessions: map<string, Session>, b: Base64)
    requires InSync(s, b)
    requires forall sid | sid in sessions :: sid in s.sessions && sessions[sid].profiles == s.sessions[sid].profiles
    ensures InSync(s.(sessions := sessions), b) && OnDisk(s.(sessions := sessions), b) == OnDisk(s, b)
    ensures VaultKept(s, s.(sessions := sessions), b)
  {
    hide Unlocked;
  }

  lemma OpenedKeeps(s: KeyState, sid: string, ps: seq<Profile>, t: Readings, b: Base64)
    requires InSync(s, b) && OnDisk(s, b) == Some(ps)
    ensures
      var s' := s.(sessions := Bound(s.sessions, sid, ps, t));
      InSync(s', b) && VaultKept(s, s', b)
  {
    hide Unlocked, Expired;
    assert OnDisk(s.(sessions := Bound(s.sessions, sid, ps, t)), b) == OnDisk(s, b);
  }

  lemma SetupKeeps(s: KeyState, pw1: string, pw2: string, io: Disk, sid: string, t: Readings, b: Base64)
    requires RoundTrips(b) && InSync(s, b)
    ensures
      var s' := DoSetup(s, pw1, pw2, io, sid, t, b).0;
      InSync(s', b) && VaultKept(s, s', b)
  {
    hide Payload, Seal, Unlocked, Expired, RoundTrips;
    var s' := DoSetup(s, pw1, pw2, io, sid, t, b).0;
    if s' != s { WrittenOpens(s', pw1, [], b); }
  }

  lemma UnlockKeeps(s: KeyState, passphrase: string, io: Disk, sid: string, t: Readings, b: Base64)
    requires InSync(s, b)
    ensures
      var s' := DoUnlock(s, passphrase, io, sid, t, b).0;
      InSync(s', b) && VaultKept(s, s', b)
  {
    hide ReadVault, Unlocked, Bound;
    if s.disk.Some? && ReadVault(s.disk, io, passphrase, b).Some? {
      OpenedIsOnDisk(s, io, passphrase, b);
      OpenedKeeps(s, sid, ReadVault(s.disk, io, passphrase, b).value, t, b);
    }
  }

  lemma ResolvedKeeps(s: KeyState, cookie: Option<string>, now: real, touched: real, b: Base64)
    requires InSync(s, b)
    ensures
      var s' := s.(sessions := Resolved(s.sessions, cookie, now, touched));
      InSync(s', b) && VaultKept(s, s', b) && OnDisk(s', b) == OnDisk(s, b)
  {
    hide Expired, InSync, OnDisk, VaultKept;
    SameDisk(s, Resolved(s.sessions, cookie, now, touched), b);
  }

  lemma KeptTwice(a: KeyState, s: KeyState, c: KeyState, b: Base64)
    requires VaultKept(a, s, b) && VaultKept(s, c, b)
    ensures VaultKept(a, c, b)
  {
    hide OnDisk;
  }

  lemma NewIdentityKeeps(
    s: KeyState, cookie: Option<string>, name: string, passphrase: string, io: Disk, made: Fresh, t: Readings, b: Base64)
    requires RoundTrips(b) && InSync(s, b) && |made.seed| == SEED_LENGTH
    ensures
      var s' := DoNewIdentity(s, cookie, name, passphrase, io, made, t, b).0;
      InSync(s', b) && VaultKept(s, s', b)
  {
    hide Resolved, Live, ReadVault, Save, DisplayName, InSync, OnDisk, VaultKept, RoundTrips;
    ResolvedKeeps(s, cookie, t.t1, t.t2, b);
    var seen := s.(sessions := Resolved(s.sessions, cookie, t.t1, t.t2));
    if DisplayName(name).Some? && ReadVault(s.disk, io, passphrase, b).Some? {
      OpenedIsOnDisk(s, io, passphrase, b);
      var ps := ReadVault(s.disk, io, passphrase, b).value;
      var added := ps + [MadeProfile(made, DisplayName(name).value)];
      assert KeysOf(ps) <= KeysOf(added);
      SaveKeeps(seen, cookie, passphrase, added, io, t, b);
      KeptTwice(s, seen, Save(seen, cookie, passphrase, added, io, t, b).0, b);
    }
  }

  lemma RenameStoredKeeps(
    s: KeyState, cookie: Option<string>, id: string, name: string, passphrase: string, io: Disk, t: Readings, b: Base64)
    requires RoundTrips(b) && InSync(s, b) && DisplayName(name).Some?
    ensures
      var s' := RenameStored(s, cookie, id, name, passphrase, io, t, b).0;
      InSync(s', b) && VaultKept(s, s', b)
  {
    hide ReadVault, Save, DisplayName, InSync, OnDisk, RoundTrips;
    if ReadVault(s.disk, io, passphrase, b).Some? {
      OpenedIsOnDisk(s, io, passphrase, b);
      var ps := ReadVault(s.disk, io, passphrase, b).value;
      var renamed := Renamed(ps, id, DisplayName(name).value);
      assert KeysOf(ps) == KeysOf(renamed);
      SaveKeeps(s, cookie, passphrase, renamed, io, t, b);
    }
  }

  lemma RenameKeeps(
    s: KeyState, cookie: Option<string>, id: string, name: string, passphrase: string, io: Disk, t: Readings, b: Base64)
    requires RoundTrips(b) && InSync(s, b)
    ensures
      var s' := DoRename(s, cookie, id, name, passphrase, io, t, b).0;
      InSync(s', b) && VaultKept(s, s', b)
  {
    hide Resolved, Live, RenameStored, DisplayName, InSync, OnDisk, VaultKept, RoundTrips;
    var once := s.(sessions := Resolved(s.sessions, cookie, t.t1, t.t2));
    var seen := s.(sessions := Resolved(once.sessions, cookie, t.t3, t.t4));
    ResolvedKeeps(s, cookie, t.t1, t.t2, b);
    ResolvedKeeps(once, cookie, t.t3, t.t4, b);
    KeptTwice(s, once, seen, b);
    if DisplayName(name).Some? {
      RenameStoredKeeps(seen, cookie, id, name, passphrase, io, t, b);
      KeptTwice(s, seen, RenameStored(seen, cookie, id, name, passphrase, io, t, b).0, b);
    }
  }

  /** Every request keeps sessions and disk in step, keeps the passphrase, and loses no key; failed writes included. */
  lemma StepKeeps(before: KeyState, r: Request, b: Base64)
    requires RoundTrips(b) && InSync(before, b) && SeedOk(r)
    ensures
      var s' := Step(before, r, b).0;
      InSync(s', b) && VaultKept(before, s', b)
  {
    hide DoSetup, DoUnlock, DoNewIdentity, DoRename, Expired, InSync, OnDisk, VaultKept, RoundTrips, Resolved, Live;
    var s := before.(sessions := Prune(before.sessions, r.t.t0));
    SameDisk(before, s.sessions, b);
    match r {
      case Setup(pw1, pw2, io, sid, t) => SetupKeeps(s, pw1, pw2, io, sid, t, b);
      case Unlock(passphrase, io, sid, t) => UnlockKeeps(s, passphrase, io, sid, t, b);
      case NewIdentity(cookie, name, passphrase, io, made, t) => NewIdentityKeeps(s, cookie, name, passphrase, io, made, t, b);
      case Rename(cookie, id, name, passphrase, io, t) => RenameKeeps(s, cookie, id, name, passphrase, io, t, b);
      case Lock(cookie, t) =>
        SameDisk(s, s.sessions, b);
        if cookie.Some? { SameDisk(s, s.sessions - {cookie.value}, b); }
      case Page(cookie, t) => ResolvedKeeps(s, cookie, t.t1, t.t2, b);
    }
    KeptTwice(before, s, Step(before, r, b).0, b);
  }

  /** In every run, every live session holds exactly the profiles on disk, failed writes included. */
  lemma {:induction false} SessionsMatchDisk(t: Trace, k: nat)
    requires IsRun(t) && RoundTrips(t.base64) && SeedsInRun(t) && k <= |t.entries|
    ensures InSync(Before(t, k), t.base64)
  {
    hide IsRun, Step, OnDisk, RoundTrips;
    if k > 0 {
      SessionsMatchDisk(t, k - 1);
      EntryIsStep(t, k - 1);
      StepKeeps(Before(t, k - 1), t.entries[k - 1].request, t.base64);
    }
  }

  /** Over any stretch of a run the vault's passphrase never changes and no key is lost, replaced or reordered. */
  lemma {:induction false} VaultNeverLosesKeys(t: Trace, i: nat, k: nat)
    requires IsRun(t) && RoundTrips(t.base64) && SeedsInRun(t) && i <= k <= |t.entries|
    ensures VaultKept(Before(t, i), Before(t, k), t.base64)
    decreases k
  {
    hide IsRun, Step, OnDisk, RoundTrips, InSync;
    if i < k {
      VaultNeverLosesKeys(t, i, k - 1);
      SessionsMatchDisk(t, k - 1);
      EntryIsStep(t, k - 1);
      StepKeeps(Before(t, k - 1), t.entries[k - 1].request, t.base64);
      KeptTwice(Before(t, i), Before(t, k - 1), Before(t, k), t.base64);
    }
  }

  /** Whatever a page shows is what the vault on disk holds at that moment. */
  lemma PagesShowDisk(t: Trace, k: nat)
    requires IsRun(t) && RoundTrips(t.base64) && SeedsInRun(t) && k < |t.entries| && t.entries[k].outcome.Shown?
    ensures OnDisk(Before(t, k), t.base64) == Some(t.entries[k].outcome.profiles)
  {
    hide IsRun, OnDisk, RoundTrips, Step;
    SessionsMatchDisk(t, k);
    EntryIsStep(t, k);
    ShownIsSession(Before(t, k), t.entries[k].request, t.base64);
  }

  lemma ShownIsSession(s: KeyState, r: Request, b: Base64)
    requires Step(s, r, b).1.Shown?
    ensures exists sid :: sid in s.sessions && Step(s, r, b).1.profiles == s.sessions[sid].profiles
  {
    hide Expired, ReadVault, Bound, Replaced, Payload, Seal, DisplayName, Renamed, Resolved, Save, RenameStored;
    if r.Page? {
      assert r.cookie.value in s.sessions;
    } else {
      OnlyPagesShow(s, r, b);
    }
  }

  lemma OnlyPagesShow(s: KeyState, r: Request, b: Base64)
    requires !r.Page?
    ensures !Step(s, r, b).1.Shown?
  {
    hide Expired, Resolved, Live, Prune, ReadVault, Bound, Replaced, Payload, Seal, DisplayName, Renamed;
  }

  // ---- timeouts ------------------------------------------------------------------------------

  /** A request that opened a session under an id. */
  predicate Opens(r: Request, o: Outcome, sid: string) { (r.Setup? || r.Unlock?) && r.sid == sid && o.Opened? }

  predicate Carries(r: Request, sid: string) { (r.NewIdentity? || r.Rename? || r.Page?) && r.cookie == Some(sid) }

  /** A request that opened the session or was let in by it; one sent back to the unlock page was not. */
  predicate Uses(r: Request, o: Outcome, sid: string) { Opens(r, o, sid) || (Carries(r, sid) && !o.ToUnlock?) }

  /** What one request does to the times of a session. */
  lemma TimesStep(before: KeyState, r: Request, b: Base64, sid: string)
    requires r.t.Ordered() && sid in Step(before, r, b).0.sessions
    ensures
      var (s', o) := Step(before, r, b);
      var session := s'.sessions[sid];
      && ((Opens(r, o, sid) && session.created == r.t.t2) || (sid in before.sessions && session.created == before.sessions[sid].created))
      && ((Uses(r, o, sid) && session.lastSeen <= r.t.t5)
          || (sid in before.sessions && session.lastSeen == before.sessions[sid].lastSeen))
  {
    hide Expired, ReadVault, Payload, Seal, DisplayName, Renamed;
  }

  predicate Timed(t: Trace) { forall x | 0 <= x < |t.entries| :: t.entries[x].request.t.Ordered() }

  predicate OpensAt(t: Trace, x: nat, sid: string)
    requires x < |t.entries|
  {
    Opens(t.entries[x].request, t.entries[x].outcome, sid)
  }

  predicate UsesAt(t: Trace, x: nat, sid: string)
    requires x < |t.entries|
  {
    Uses(t.entries[x].request, t.entries[x].outcome, sid)
  }

  /** Every session was opened by an earlier request at its creation time, and last seen no later than the end of an earlier
      request that used it, however often its vault was replaced since. */
  lemma {:induction false} SessionTimes(t: Trace, k: nat, sid: string) returns (i: nat, j: nat)
    requires IsRun(t) && Timed(t) && k <= |t.entries| && sid in Before(t, k).sessions
    ensures i < k && OpensAt(t, i, sid) && Before(t, k).sessions[sid].created == t.entries[i].request.t.t2
    ensures j < k && UsesAt(t, j, sid) && Before(t, k).sessions[sid].lastSeen <= t.entries[j].request.t.t5
    decreases k
  {
    hide IsRun, Step, Opens, Uses;
    if k == 0 {
      assert false;
    } else {
      EntryIsStep(t, k - 1);
      var before := Before(t, k - 1);
      TimesStep(before, t.entries[k - 1].request, t.base64, sid);
      i, j := k - 1, k - 1;
      if sid in before.sessions {
        var i', j' := SessionTimes(t, k - 1, sid);
        var s' := Before(t, k).sessions[sid];
        if s'.created == before.sessions[sid].created { i := i'; }
        if s'.lastSeen == before.sessions[sid].lastSeen { j := j'; }
      }
    }
  }

  lemma ExpiredIsRefused(before: KeyState, r: Request, b: Base64, sid: string)
    requires Carries(r, sid) && (sid in before.sessions ==> Expired(before.sessions[sid], r.t.t1))
    ensures Step(before, r, b).1 == ToUnlock
  {
    hide ReadVault, Save, RenameStored, DisplayName;
  }

  /** No vault is handed out more than 30 minutes after the last request that the session let in; requests refused
      meanwhile do not count. */
  lemma NoUseAfterIdle(t: Trace, k: nat, sid: string)
    requires IsRun(t) && Timed(t) && k < |t.entries| && Carries(t.entries[k].request, sid)
    requires forall j | 0 <= j < k && UsesAt(t, j, sid) :: t.entries[k].request.t.t1 - t.entries[j].request.t.t5 > 1800.0
    ensures t.entries[k].outcome == ToUnlock
  {
    hide IsRun, Step, UsesAt, OpensAt, Carries;
    var before := Before(t, k);
    if sid in before.sessions {
      var i, j := SessionTimes(t, k, sid);
      assert t.entries[k].request.t.t1 - t.entries[j].request.t.t5 > 1800.0;
    }
    EntryIsStep(t, k);
    ExpiredIsRefused(before, t.entries[k].request, t.base64, sid);
  }

  /** No vault is handed out more than eight hours after the session was opened, however often it was touched or its
      vault replaced; attempts to open it that failed do not count. */
  lemma NoUseAfterLifetime(t: Trace, k: nat, sid: string)
    requires IsRun(t) && Timed(t) && k < |t.entries| && Carries(t.entries[k].request, sid)
    requires forall i | 0 <= i < k && OpensAt(t, i, sid) :: t.entries[k].request.t.t1 - t.entries[i].request.t.t2 > 28800.0
    ensures t.entries[k].outcome == ToUnlock
  {
    hide IsRun, Step, UsesAt, OpensAt, Carries;
    var before := Before(t, k);
    if sid in before.sessions {
      var i, j := SessionTimes(t, k, sid);
      assert t.entries[k].request.t.t1 - t.entries[i].request.t.t2 > 28800.0;
    }
    EntryIsStep(t, k);
    ExpiredIsRefused(before, t.entries[k].request, t.base64, sid);
  }
}
