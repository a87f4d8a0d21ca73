// The genesis wizard over whole runs that mix wizard requests, signed messages and resets.
module WizardRuns {
  import opened Wrappers
  import opened Text
  import opened Database
  import opened RegistryLaws
  import opened Core
  import opened StepLaws
  import opened Runs
  import opened Replay
  import Genesis

  // ---- wizard events ----------------------------------------------------------------

  predicate Issues(e: Event, response: Response, cid: string) {
    e.Challenge? && e.challengeId == cid && response.Replied?
  }

  predicate Consumes(e: Event, response: Response, cid: string) {
    e.Verify? && e.challengeId == cid && response.Replied?
  }

  predicate IssuesAt(t: Trace, i: nat, cid: string)
    requires i < |t.entries|
  {
    Issues(t.entries[i].event, t.entries[i].response, cid)
  }

  predicate ConsumesAt(t: Trace, i: nat, cid: string)
    requires i < |t.entries|
  {
    Consumes(t.entries[i].event, t.entries[i].response, cid)
  }

  predicate CompletesAt(t: Trace, i: nat)
    requires i < |t.entries|
  {
    t.entries[i].event.Complete? && t.entries[i].response.Replied?
  }

  // ---- what one event does to a challenge row ----------------------------------------------

  /** An issue response carries the body and expiry that were stored. */
  predicate Announces(response: Response, cid: string, row: ChallengeRow) {
    response == Replied(IssuedBody(Genesis.Issued(cid, row.body, row.issuedAt, row.expiresAt)))
  }

  /** A stored challenge was already there untouched, was issued just now, or was consumed just now. */
  predicate RowHistory(db: Db, platform: Platform, e: Event, response: Response, cid: string, row: ChallengeRow) {
    !(e.ResetCommand? && response.Replied?) &&
    if Issues(e, response, cid) then
      && row.subjectKey == NormalizeKey(e.key) && row.issuedAt == PyInt(e.now) && row.consumedAt.None?
      && Announces(response, cid, row)
    else if Consumes(e, response, cid) then
      && cid in db.challenges && db.challenges[cid].consumedAt.None?
      && row == db.challenges[cid].(consumedAt := Some(PyInt(e.now)))
      && platform.verifySignature(row.subjectKey, row.body, e.signature)
    else cid in db.challenges && row == db.challenges[cid]
  }

  lemma IssueRowHistory(db: Db, ctx: Context, e: Event, cid: string)
    requires e.Challenge? && cid in Step(db, ctx, e).0.challenges
    ensures RowHistory(db, ctx.platform, e, Step(db, ctx, e).1, cid, Step(db, ctx, e).0.challenges[cid])
  {
    hide NormalizeKey, Genesis.Issue, IssuedBody, Post;
    IssueRow(db, ctx.platform, PyInt(e.now), e.key, e.challengeId, e.freshInstance, cid);
  }

  lemma IssueRow(db: Db, platform: Platform, now: int, key: string, id: string, instance: string, cid: string)
    ensures
      var (db', r) := Genesis.Issue(db, platform, now, key, id, instance);
      if r.Success? then
        && id !in db.challenges && db'.challenges.Keys == db.challenges.Keys + {id}
        && db'.challenges[id].subjectKey == NormalizeKey(key) && db'.challenges[id].issuedAt == now
        && db'.challenges[id].consumedAt.None?
        && r.value == Genesis.Issued(id, db'.challenges[id].body, now, db'.challenges[id].expiresAt)
        && (cid in db.challenges ==> db'.challenges[cid] == db.challenges[cid])
      else db'.challenges == db.challenges
  {
    hide NormalizeKey, Genesis.TouchedForIssue, Genesis.StoredInstanceId, Genesis.NewChallenge, ChallengeText.Body;
  }

  lemma VerifyRowHistory(db: Db, ctx: Context, e: Event, cid: string)
    requires e.Verify? && cid in Step(db, ctx, e).0.challenges
    ensures RowHistory(db, ctx.platform, e, Step(db, ctx, e).1, cid, Step(db, ctx, e).0.challenges[cid])
  {
    hide IsLowerHex, Post;
    VerifyRow(db, ctx.platform, PyInt(e.now), e.challengeId, e.signature, cid);
    hide Genesis.VerifyAndConsume;
  }

  lemma VerifyRow(db: Db, platform: Platform, now: int, id: string, signature: string, cid: string)
    requires cid in Genesis.VerifyAndConsume(db, platform, now, id, signature).0.challenges
    ensures
      var (db', r) := Genesis.VerifyAndConsume(db, platform, now, id, signature);
      && cid in db.challenges
      && db'.challenges[cid] == (if r.Success? && cid == id then db.challenges[cid].(consumedAt := Some(now)) else db.challenges[cid])
      && (r.Success? && cid == id ==>
            db.challenges[cid].consumedAt.None?
            && platform.verifySignature(db.challenges[cid].subjectKey, db.challenges[cid].body, signature))
  {
    hide IsLowerHex;
  }

  lemma OtherRowHistory(db: Db, ctx: Context, e: Event, cid: string)
    requires StateOk(db, ctx.platform) && cid in Step(db, ctx, e).0.challenges
    requires !e.Challenge? && !e.Verify?
    ensures RowHistory(db, ctx.platform, e, Step(db, ctx, e).1, cid, Step(db, ctx, e).0.challenges[cid])
  {
    hide RegistryOk, DedupOk, ChallengesOk, GenesisOk, WriteOnce, ModulesAreBound, Post, Genesis.Complete, Genesis.Reset, CompletedBody;
    match e
    case Message(body, now, later) => MessageKeeps(db, ctx, body, now, later);
    case Complete(now, args) => CompleteOutcome(db, ctx.platform, PyInt(now), args);
    case ResetCommand(now, override) => ResetNeverLacksLabel(db, PyInt(now), override);
  }

  lemma ChallengeRowHistory(db: Db, ctx: Context, e: Event, cid: string)
    requires StateOk(db, ctx.platform) && cid in Step(db, ctx, e).0.challenges
    ensures RowHistory(db, ctx.platform, e, Step(db, ctx, e).1, cid, Step(db, ctx, e).0.challenges[cid])
  {
    hide StateOk, RowHistory, Step;
    if e.Challenge? { IssueRowHistory(db, ctx, e, cid); }
    else if e.Verify? { VerifyRowHistory(db, ctx, e, cid); }
    else { OtherRowHistory(db, ctx, e, cid); }
  }

  // ---- provenance -----------------------------------------------------------------------------

  /** Event `j` is the one accepted verification of the challenge among the events between `i` and `k`. */
  ghost predicate ConsumedOnce(t: Trace, i: nat, k: nat, cid: string, j: nat)
    requires k <= |t.entries|
  {
    i < j < k && ConsumesAt(t, j, cid) && forall x | i < x < k && ConsumesAt(t, x, cid) :: x == j
  }

  /** The consumption of a row: one accepted verification, at the row's time, of a signature by its key over its body. */
  ghost predicate VerifiedBy(t: Trace, i: nat, k: nat, cid: string, row: ChallengeRow, j: nat)
    requires k <= |t.entries|
  {
    && ConsumedOnce(t, i, k, cid, j) && t.entries[j].event.Verify? && row.consumedAt == Some(PyInt(t.entries[j].event.now))
    && t.ctx.platform.verifySignature(row.subjectKey, row.body, t.entries[j].event.signature)
  }

  /** Event `i` issued the stored challenge, no reset came since, and it was consumed by at most one verification. */
  ghost predicate Backed(t: Trace, k: nat, cid: string, row: ChallengeRow, i: nat)
    requires k <= |t.entries|
  {
    && i < k && IssuesAt(t, i, cid) && NoReset(t, i + 1, k)
    && t.entries[i].event.Challenge? && row.subjectKey == NormalizeKey(t.entries[i].event.key)
    && row.issuedAt == PyInt(t.entries[i].event.now) && Announces(t.entries[i].response, cid, row)
    && (row.consumedAt.None? ==> forall x | i < x < k :: !ConsumesAt(t, x, cid))
    && (row.consumedAt.Some? ==> exists j: nat :: VerifiedBy(t, i, k, cid, row, j))
  }

  lemma ConsumedNow(t: Trace, k: nat, cid: string, row: ChallengeRow, row': ChallengeRow, i: nat)
    requires i < k < |t.entries| && ConsumesAt(t, k, cid) && (forall x | i < x < k :: !ConsumesAt(t, x, cid))
    requires t.entries[k].event.Verify? && row' == row.(consumedAt := Some(PyInt(t.entries[k].event.now)))
    requires t.ctx.platform.verifySignature(row'.subjectKey, row'.body, t.entries[k].event.signature)
    ensures VerifiedBy(t, i, k + 1, cid, row', k)
  {
    hide ConsumesAt, PyInt;
  }

  lemma ConsumedBefore(t: Trace, k: nat, cid: string, row: ChallengeRow, i: nat, j: nat)
    requires i < k < |t.entries| && !ConsumesAt(t, k, cid) && VerifiedBy(t, i, k, cid, row, j)
    ensures VerifiedBy(t, i, k + 1, cid, row, j)
  {
    hide ConsumesAt, PyInt;
  }

  lemma BackedStep(t: Trace, k: nat, cid: string, row: ChallengeRow, row': ChallengeRow, i: nat)
    requires k < |t.entries| && Backed(t, k, cid, row, i)
    requires cid in DbAt(t, k).challenges && row == DbAt(t, k).challenges[cid]
    requires RowHistory(DbAt(t, k), t.ctx.platform, t.entries[k].event, t.entries[k].response, cid, row') && !IssuesAt(t, k, cid)
    ensures Backed(t, k + 1, cid, row', i)
  {
    hide NormalizeKey, VerifiedBy, PyInt, IssuedBody;
    if ConsumesAt(t, k, cid) {
      ConsumedNow(t, k, cid, row, row', i);
    } else if row'.consumedAt.Some? {
      var j: nat :| VerifiedBy(t, i, k, cid, row, j);
      ConsumedBefore(t, k, cid, row, i, j);
    }
  }

  lemma RowHistoryAt(t: Trace, k: nat, cid: string)
    requires IsRun(t) && k < |t.entries| && cid in DbAt(t, k + 1).challenges
    ensures RowHistory(DbAt(t, k), t.ctx.platform, t.entries[k].event, t.entries[k].response, cid, DbAt(t, k + 1).challenges[cid])
  {
    hide RowHistory, StateOk, Step, PresentedBy, Executed;
    EntryIsStep(t, k);
    ReachableStateOk(t, k);
    ChallengeRowHistory(DbAt(t, k), t.ctx, t.entries[k].event, cid);
  }

  /** Every challenge in every reachable state is backed by the event that issued it. */
  lemma {:induction false} EveryChallengeIsBacked(t: Trace, k: nat, cid: string) returns (i: nat)
    requires IsRun(t) && k <= |t.entries| && cid in DbAt(t, k).challenges
    ensures Backed(t, k, cid, DbAt(t, k).challenges[cid], i)
    decreases k
  {
    hide IsRun, NormalizeKey, Backed;
    if k == 0 {
      assert false;
    } else {
      var row := DbAt(t, k).challenges[cid];
      RowHistoryAt(t, k - 1, cid);
      if IssuesAt(t, k - 1, cid) {
        i := k - 1;
        FreshlyIssued(t, k - 1, cid, row);
      } else {
        i := EveryChallengeIsBacked(t, k - 1, cid);
        BackedStep(t, k - 1, cid, DbAt(t, k - 1).challenges[cid], row, i);
      }
    }
  }

  lemma FreshlyIssued(t: Trace, i: nat, cid: string, row: ChallengeRow)
    requires i < |t.entries| && IssuesAt(t, i, cid)
    requires RowHistory(DbAt(t, i), t.ctx.platform, t.entries[i].event, t.entries[i].response, cid, row)
    ensures Backed(t, i + 1, cid, row, i)
  {
    hide NormalizeKey, PyInt, IssuedBody;
  }

  /** Every successful completion is backed by a challenge issued to the same operator key, whose body as returned by the
      issue was signed by that key and verified exactly once within its 300 seconds, with no reset since it was issued; the
      completion comes at most 1199 seconds after the issue. */
  lemma CompletionIsBacked(t: Trace, k: nat) returns (i: nat, j: nat)
    requires IsRun(t) && WellTimed(t) && k < |t.entries| && CompletesAt(t, k)
    ensures
      var e := t.entries[k].event;
      var cid := Lower(Strip(e.args.challengeId));
      && i < j < k && IssuesAt(t, i, cid) && ConsumedOnce(t, i, k, cid, j) && NoReset(t, i + 1, k)
      && var issue, verify := t.entries[i].event, t.entries[j].event;
         && NormalizeKey(issue.key) == NormalizeKey(e.args.subjectKey)
         && (exists row ::
               Announces(t.entries[i].response, cid, row) && row.issuedAt == PyInt(issue.now)
               && t.ctx.platform.verifySignature(NormalizeKey(issue.key), row.body, verify.signature))
         && PyInt(issue.now) <= PyInt(verify.now) < PyInt(issue.now) + 300
         && PyInt(e.now) - PyInt(verify.now) <= 900
         && PyInt(e.now) - PyInt(issue.now) <= 1199
  {
    hide IsRun, Strip, Lower, NoReset, NormalizeKey, Genesis.CheckCompletion, PyInt, Announces;
    CompletionChecked(t, k);
    var cid := Lower(Strip(t.entries[k].event.args.challengeId));
    var row := DbAt(t, k).challenges[cid];
    i := EveryChallengeIsBacked(t, k, cid);
    j :| VerifiedBy(t, i, k, cid, row, j);
    PyIntMonotone(t.entries[i].event.now, t.entries[j].event.now);
  }

  lemma CompletionChecked(t: Trace, k: nat)
    requires IsRun(t) && k < |t.entries| && CompletesAt(t, k)
    ensures
      var e := t.entries[k].event;
      var cid := Lower(Strip(e.args.challengeId));
      var db := DbAt(t, k);
      && cid in db.challenges && NormalizeKey(e.args.subjectKey) == db.challenges[cid].subjectKey
      && db.challenges[cid].consumedAt.Some?
      && db.challenges[cid].consumedAt.value < db.challenges[cid].issuedAt + 300
      && PyInt(e.now) - db.challenges[cid].consumedAt.value <= 900
  {
    hide Strip, Lower, NormalizeKey, Step, PresentedBy, Executed, StateOk, Genesis.CheckCompletion, ChallengesOk;
    EntryIsStep(t, k);
    ReachableStateOk(t, k);
    StateParts(DbAt(t, k), t.ctx.platform);
    CompletesIsComplete(DbAt(t, k), t.ctx, t.entries[k].event);
    CompletionChecks(DbAt(t, k), t.ctx, t.entries[k].event);
  }

  lemma CompletesIsComplete(db: Db, ctx: Context, e: Event)
    requires e.Complete? && Step(db, ctx, e).1.Replied?
    ensures
      var (db', r) := Genesis.Complete(db, ctx.platform, PyInt(e.now), e.args);
      r.Success? && Step(db, ctx, e).0 == db'
  {
    hide Genesis.Complete, CompletedBody, Post;
  }

  lemma CompletionChecks(db: Db, ctx: Context, e: Event)
    requires e.Complete? && ChallengesOk(db.challenges, ctx.platform)
    requires Genesis.Complete(db, ctx.platform, PyInt(e.now), e.args).1.Success?
    ensures
      var cid := Lower(Strip(e.args.challengeId));
      && cid in db.challenges && NormalizeKey(e.args.subjectKey) == db.challenges[cid].subjectKey
      && db.challenges[cid].consumedAt.Some?
      && db.challenges[cid].consumedAt.value < db.challenges[cid].issuedAt + 300
      && PyInt(e.now) - db.challenges[cid].consumedAt.value <= 900
  {
    hide Strip, Lower, IsLowerHex, Genesis.CheckCompletion, NormalizeKey, Genesis.Complete;
    CompleteOutcome(db, ctx.platform, PyInt(e.now), e.args);
    CheckedCompletion(db, ctx.platform, PyInt(e.now), e.args);
    CompletionSubject(db, ctx, PyInt(e.now), e.args);
    assert ChallengeOk(db.challenges[Lower(Strip(e.args.challengeId))], ctx.platform);
  }

  lemma CompletionSubject(db: Db, ctx: Context, now: int, a: Genesis.CompleteArgs)
    requires Genesis.CheckCompletion(db, ctx.platform, now, a).Success?
    ensures Genesis.CheckCompletion(db, ctx.platform, now, a).value.subjectKey == NormalizeKey(a.subjectKey)
  {
    hide Strip, Lower, IsLowerHex, NormalizeKey, Genesis.ValidateRootLabel, Genesis.ValidateOrgKey, Genesis.ValidateDisplayName,
         Genesis.ValidateImage;
  }

  // ---- between completion and reset ----------------------------------------------------------------

  /** From any complete state to any later one without a reset in between, the wizard's outcome is frozen. */
  lemma {:induction false} CompleteStaysFrozen(t: Trace, i: nat, k: nat)
    requires IsRun(t) && i <= k <= |t.entries| && DbAt(t, i).genesis.complete && NoReset(t, i, k)
    ensures WizardFrozen(DbAt(t, i), DbAt(t, k))
    decreases k
  {
    hide StateOk, IsReset, Step, PresentedBy, Executed;
    if i < k {
      CompleteStaysFrozen(t, i, k - 1);
      ReachableStateOk(t, k - 1);
      ResetIsReset(t, k - 1);
      EntryIsStep(t, k - 1);
      CompletedWizardIsFrozen(DbAt(t, k - 1), t.ctx, t.entries[k - 1].event);
    }
  }

  /** The label, organisation key and operator key a completion asks for, in their stored form. */
  function RootLabel(a: Genesis.CompleteArgs): string { Lower(Strip(a.rootName)) }

  lemma CompletionCommits(db: Db, ctx: Context, now: int, a: Genesis.CompleteArgs)
    requires ChallengesOk(db.challenges, ctx.platform) && Genesis.Complete(db, ctx.platform, now, a).1.Success?
    ensures
      var db' := Genesis.Complete(db, ctx.platform, now, a).0;
      && db'.genesis.complete && db'.genesis.rootLabel == Some(RootLabel(a))
      && db'.genesis.bootstrapKey == Some(NormalizeKey(a.subjectKey)) && NormalizeKey(a.subjectKey) != ""
      && RootLabel(a) in db'.names && db'.names[RootLabel(a)].resolvedId == NormalizeKey(a.orgKey)
  {
    hide Strip, Lower, Genesis.CheckCompletion, Genesis.Complete, Genesis.BindRoot, NormalizeKey, ChallengeOk;
    CompleteOutcome(db, ctx.platform, now, a);
    CheckedCompletion(db, ctx.platform, now, a);
    CompletionSubject(db, ctx, now, a);
    CompletionNames(db, ctx, now, a);
  }

  lemma CompletionNames(db: Db, ctx: Context, now: int, a: Genesis.CompleteArgs)
    requires Genesis.CheckCompletion(db, ctx.platform, now, a).Success?
    ensures
      var c := Genesis.CheckCompletion(db, ctx.platform, now, a).value;
      c.rootLabel == RootLabel(a) && c.orgKey == NormalizeKey(a.orgKey)
  {
    hide Strip, Lower, IsLowerHex, NormalizeKey, Genesis.ValidateDisplayName, Genesis.ValidateImage;
  }

  lemma OperatorIsBootstrap(settings: Settings, g: GenesisRow, key: string)
    requires g.complete && g.bootstrapKey == Some(NormalizeKey(key)) && NormalizeKey(key) != ""
    ensures SenderIsBootstrap(settings, g, key)
  {
    hide Trim, Lower;
    TrimIsTrimmed(key, IsPySpace);
    LowerKeepsTrim(Strip(key));
    LowerIdempotent(Strip(key));
  }

  /** What a completion leaves in the committed tables. */
  lemma CompletionCommitsAt(t: Trace, i: nat)
    requires IsRun(t) && i < |t.entries| && CompletesAt(t, i)
    ensures
      var db := t.entries[i].after;
      var a := t.entries[i].event.args;
      && db.genesis.complete && db.genesis.rootLabel == Some(RootLabel(a))
      && db.genesis.bootstrapKey == Some(NormalizeKey(a.subjectKey)) && NormalizeKey(a.subjectKey) != ""
      && RootLabel(a) in db.names && db.names[RootLabel(a)].resolvedId == NormalizeKey(a.orgKey)
  {
    hide Step, PresentedBy, Executed, StateOk, RegistryOk, DedupOk, ChallengesOk, GenesisOk, NormalizeKey, RootLabel, Genesis.Complete;
    EntryIsStep(t, i);
    ReachableStateOk(t, i);
    StateParts(DbAt(t, i), t.ctx.platform);
    CompletesIsComplete(DbAt(t, i), t.ctx, t.entries[i].event);
    CompletionCommits(DbAt(t, i), t.ctx, PyInt(t.entries[i].event.now), t.entries[i].event.args);
  }

  /** From a completion until the next reset: the wizard stays complete; the label stays bound to the organisation key it
      was completed with; the operator key stays an effective bootstrap key; challenges never change; and no further
      challenge, verification or completion is accepted. */
  lemma CompletionHolds(t: Trace, i: nat, k: nat)
    requires IsRun(t) && i < k <= |t.entries| && CompletesAt(t, i) && NoReset(t, i + 1, k)
    ensures
      var db := DbAt(t, k);
      var a := t.entries[i].event.args;
      && db.genesis.complete
      && db.genesis.rootLabel == Some(RootLabel(a)) && db.genesis.bootstrapKey == Some(NormalizeKey(a.subjectKey))
      && RootLabel(a) in db.names && db.names[RootLabel(a)].resolvedId == NormalizeKey(a.orgKey)
      && SenderIsBootstrap(t.ctx.settings, db.genesis, a.subjectKey)
      && db.challenges == t.entries[i].after.challenges
      && (k < |t.entries| && !t.entries[k].event.Message? && !t.entries[k].event.ResetCommand? ==> t.entries[k].response.Refused?)
  {
    hide IsRun, NormalizeKey, SenderIsBootstrap, RootLabel, WriteOnce, ModulesAreBound;
    CompletionCommitsAt(t, i);
    CompleteStaysFrozen(t, i + 1, k);
    RegistryIsWriteOnce(t, i + 1, k);
    OperatorIsBootstrap(t.ctx.settings, DbAt(t, k).genesis, t.entries[i].event.args.subjectKey);
    WriteOnceName(t.entries[i].after, DbAt(t, k), RootLabel(t.entries[i].event.args));
    if k < |t.entries| { CompleteRefusesWizard(t, k); }
  }

  lemma CompleteRefusesWizard(t: Trace, k: nat)
    requires IsRun(t) && k < |t.entries| && DbAt(t, k).genesis.complete
    ensures !t.entries[k].event.Message? && !t.entries[k].event.ResetCommand? ==> t.entries[k].response.Refused?
  {
    hide Step, PresentedBy, Executed, StateOk, IsReset;
    EntryIsStep(t, k);
    ReachableStateOk(t, k);
    ResetIsReset(t, k);
    if !ResetAt(t, k) { CompletedWizardIsFrozen(DbAt(t, k), t.ctx, t.entries[k].event); }
  }

  lemma WriteOnceName(a: Db, b: Db, name: string)
    requires WriteOnce(a, b) && name in a.names
    ensures name in b.names && b.names[name].resolvedId == a.names[name].resolvedId
  {
  }

  /** Between two successful completions there is a successful reset. */
  lemma CompletionsNeedReset(t: Trace, i: nat, k: nat)
    requires IsRun(t) && i < k < |t.entries| && CompletesAt(t, i) && CompletesAt(t, k)
    ensures exists j :: i < j < k && ResetAt(t, j)
  {
    hide IsRun, NormalizeKey, SenderIsBootstrap, RootLabel;
    if NoReset(t, i + 1, k) { CompletionHolds(t, i, k); }
  }
}
