// Whole runs from a freshly migrated database, as recorded traces: what holds in every reachable
// state, and between any two.
module Runs {
  import opened Wrappers
  import opened Errors
  import opened Json
  import opened Database
  import opened Dials
  import opened Registry
  import opened RegistryLaws
  import opened Core
  import opened StepLaws
  import Genesis
  import Branding

  /** One event of a run: its response, the committed tables after it, the message it presented if that passed every
      check up to deduplication, and whether the message was executed and committed. */
  datatype Entry = Entry(event: Event, response: Response, after: Db, presented: Option<Execution>, executed: bool)

  /** A run of a deployment. */
  datatype Trace = Trace(ctx: Context, entries: seq<Entry>)

  /** The committed tables before event `i`; the last ones when `i` is the length. */
  function DbAt(t: Trace, i: nat): Db
    requires i <= |t.entries|
  {
    if i == 0 then EMPTY_DB else t.entries[i - 1].after
  }

  function PresentedBy(db: Db, ctx: Context, e: Event): Option<Execution> {
    if e.Message? then
      var p := Presented(db, ctx, e.body, e.now);
      if p.Some? then Some(Execution(p.value.0, p.value.1, e.now)) else None
    else None
  }

  /** Entry `i` records what its event does to the tables before it. */
  predicate Recorded(t: Trace, i: nat)
    requires i < |t.entries|
  {
    var n := t.entries[i];
    && (n.after, n.response) == Step(DbAt(t, i), t.ctx, n.event)
    && n.presented == PresentedBy(DbAt(t, i), t.ctx, n.event)
    && n.executed == Executed(DbAt(t, i), t.ctx, n.event).Some?
  }

  /** Every entry is recorded; the run starts from the empty database. */
  predicate IsRun(t: Trace) { forall i: nat {:trigger Recorded(t, i)} | i < |t.entries| :: Recorded(t, i) }

  /** The run a sequence of events makes. */
  function Play(ctx: Context, events: seq<Event>): Trace {
    if |events| == 0 then Trace(ctx, [])
    else
      var front := Play(ctx, events[..|events| - 1]);
      var e := events[|events| - 1];
      var db := DbAt(front, |front.entries|);
      var (after, response) := Step(db, ctx, e);
      Trace(ctx, front.entries + [Entry(e, response, after, PresentedBy(db, ctx, e), Executed(db, ctx, e).Some?)])
  }

  lemma RecordedPrefix(t: Trace, u: Trace, i: nat)
    requires t.ctx == u.ctx && t.entries <= u.entries && i < |t.entries|
    ensures Recorded(t, i) == Recorded(u, i)
  {
    hide Step, PresentedBy, Executed;
    assert DbAt(t, i) == DbAt(u, i);
  }

  /** Every event sequence has a run, and only one. */
  lemma {:induction false} PlayIsRun(ctx: Context, events: seq<Event>)
    ensures
      var t := Play(ctx, events);
      && IsRun(t) && t.ctx == ctx && |t.entries| == |events| && (forall i | 0 <= i < |events| :: t.entries[i].event == events[i])
  {
    hide Step, PresentedBy, Executed;
    if |events| > 0 {
      var front := events[..|events| - 1];
      PlayIsRun(ctx, front);
      var t := Play(ctx, events);
      assert Play(ctx, front).entries <= t.entries;
      forall i: nat | i < |events| ensures Recorded(t, i) {
        if i < |front| {
          RecordedPrefix(Play(ctx, front), t, i);
          assert Recorded(Play(ctx, front), i);
        } else {
          assert DbAt(t, i) == DbAt(Play(ctx, front), i);
        }
      }
    }
  }

  lemma {:induction false} RunsAreUnique(t: Trace, u: Trace, k: nat)
    requires IsRun(t) && IsRun(u) && t.ctx == u.ctx && k <= |t.entries| && k <= |u.entries|
    requires forall i | 0 <= i < k :: t.entries[i].event == u.entries[i].event
    ensures t.entries[..k] == u.entries[..k]
  {
    hide Step, PresentedBy, Executed;
    if k > 0 {
      RunsAreUnique(t, u, k - 1);
      assert Recorded(t, k - 1) && Recorded(u, k - 1);
      assert k > 1 ==> t.entries[..k - 1][k - 2] == u.entries[..k - 1][k - 2];
      assert DbAt(t, k - 1) == DbAt(u, k - 1);
    }
  }

  lemma EntryIsStep(t: Trace, i: nat)
    requires IsRun(t) && i < |t.entries|
    ensures
      var n := t.entries[i];
      var db := DbAt(t, i);
      && DbAt(t, i + 1) == n.after && (n.after, n.response) == Step(db, t.ctx, n.event)
      && n.presented == PresentedBy(db, t.ctx, n.event) && n.executed == Executed(db, t.ctx, n.event).Some?
  {
    hide Step, PresentedBy, Executed;
    assert Recorded(t, i);
  }

  predicate ResetAt(t: Trace, i: nat)
    requires i < |t.entries|
  {
    t.entries[i].event.ResetCommand? && t.entries[i].response.Replied?
  }

  lemma ResetIsReset(t: Trace, i: nat)
    requires IsRun(t) && i < |t.entries|
    ensures ResetAt(t, i) == IsReset(DbAt(t, i), t.ctx, t.entries[i].event)
  {
    hide Step, PresentedBy, Executed;
    EntryIsStep(t, i);
  }

  /** No reset succeeds among events `i..k`. */
  predicate NoReset(t: Trace, i: nat, k: nat)
    requires i <= k <= |t.entries|
  {
    forall j :: i <= j < k ==> !ResetAt(t, j)
  }

  /** The clock never runs backwards. */
  predicate WellTimed(t: Trace) {
    forall i, j :: 0 <= i < j < |t.entries| ==> t.entries[i].event.now <= t.entries[j].event.now
  }

  /** The invariant holds in every reachable state. */
  lemma {:induction false} ReachableStateOk(t: Trace, i: nat)
    requires IsRun(t) && i <= |t.entries|
    ensures StateOk(DbAt(t, i), t.ctx.platform)
  {
    hide Step, PresentedBy, Executed, StateOk;
    if i == 0 {
      EmptyStateOk(t.ctx.platform);
    } else {
      ReachableStateOk(t, i - 1);
      EntryIsStep(t, i - 1);
      StepKeepsState(DbAt(t, i - 1), t.ctx, t.entries[i - 1].event);
    }
  }

  lemma StateParts(db: Db, platform: Platform)
    requires StateOk(db, platform)
    ensures RegistryOk(db) && DedupOk(db.dedup) && ChallengesOk(db.challenges, platform) && GenesisOk(db.genesis, db.names)
  {
    hide RegistryOk, DedupOk, ChallengesOk, GenesisOk;
  }

  // ---- the registry over runs -------------------------------------------------------------

  /** In every reachable state the legacy route of a scope is its first dial, core has a row exactly when it has dials,
      and both public reads report the same route. */
  lemma LegacyRouteInEveryState(t: Trace, i: nat, get: Inbound, lookup: Inbound, id: string, version: string, now: int)
    requires IsRun(t) && i <= |t.entries|
    requires ParseModuleName(get.payload, "module_id") == Success(id)
    requires ParseModuleName(lookup.payload, "module_name") == Success(id)
    ensures
      var db := DbAt(t, i);
      var g, l := GetModuleRoute(db, get), LookupModule(db, lookup, version, now);
      && LegacyInSync(db) && g.Success? == l.Success?
      && (g.Success? ==> Field(g.value.payload, "route_detail") == Field(l.value.payload, "route"))
  {
    hide IsRun, GetModuleRoute, LookupModule, ParseModuleName, LegacyInSync, TableOk, ModulesOk, NamesOk, StateOk;
    ReachableStateOk(t, i);
    StateParts(DbAt(t, i), t.ctx.platform);
    RouteReadsAgree(DbAt(t, i), get, lookup, id, version, now);
  }

  /** Names and module identities, once committed, never change while no reset succeeds; modules stay under bound names. */
  lemma {:induction false} RegistryIsWriteOnce(t: Trace, i: nat, k: nat)
    requires IsRun(t) && i <= k <= |t.entries| && NoReset(t, i, k)
    ensures WriteOnce(DbAt(t, i), DbAt(t, k))
    ensures ModulesAreBound(DbAt(t, i)) ==> ModulesAreBound(DbAt(t, k))
    decreases k
  {
    hide WriteOnce, ModulesAreBound, StateOk, IsReset, Step, PresentedBy, Executed;
    if i == k {
      WriteOnceReflexive(DbAt(t, i));
    } else {
      RegistryIsWriteOnce(t, i, k - 1);
      ReachableStateOk(t, k - 1);
      ResetIsReset(t, k - 1);
      EntryIsStep(t, k - 1);
      StepIsWriteOnce(DbAt(t, k - 1), t.ctx, t.entries[k - 1].event);
      WriteOnceTransitive(DbAt(t, i), DbAt(t, k - 1), DbAt(t, k));
    }
  }

  /** Until the first reset, every module is published under the lower-case form of a bound name, and core never is. */
  lemma ModulesAreAlwaysBound(t: Trace, k: nat)
    requires IsRun(t) && k <= |t.entries| && NoReset(t, 0, k)
    ensures ModulesAreBound(DbAt(t, k)) && CORE_MODULE !in DbAt(t, k).modules
  {
    hide IsRun, StateOk, WriteOnce, ModulesAreBound, RegistryOk;
    EmptyStateOk(t.ctx.platform);
    ReachableStateOk(t, k);
    StateParts(DbAt(t, k), t.ctx.platform);
    RegistryIsWriteOnce(t, 0, k);
    if CORE_MODULE in DbAt(t, k).modules { NotCore(DbAt(t, k), CORE_MODULE); }
  }

  // ---- user profiles over runs -------------------------------------------------------------

  /** The user write an entry commits. */
  function CommittedWrite(ctx: Context, n: Entry): Option<Branding.UserWrite> {
    if n.executed && n.presented.Some? && n.event.Message?
    then RequestedWrite(ctx, n.presented.value.message, PyInt(n.event.later)) else None
  }

  /** The user writes committed before event `k`. */
  function CommittedWrites(t: Trace, k: nat): seq<Branding.UserWrite>
    requires k <= |t.entries|
  {
    if k == 0 then []
    else
      var w := CommittedWrite(t.ctx, t.entries[k - 1]);
      CommittedWrites(t, k - 1) + if w.Some? then [w.value] else []
  }

  lemma MessageWritesUsers(db: Db, ctx: Context, body: Body, now: real, later: real)
    requires RegistryOk(db) && DedupOk(db.dedup)
    ensures
      var e := Message(body, now, later);
      var x := Executed(db, ctx, e);
      var w := if x.Some? then RequestedWrite(ctx, x.value.message, PyInt(later)) else None;
      && (x.Some? ==> PresentedBy(db, ctx, e) == x)
      && Step(db, ctx, e).0.users == if w.Some? then Branding.ApplyWrite(db.users, w.value) else db.users
  {
    hide RegistryOk, DedupOk, Prune, Dispatch, Render, Presented, SuccessEnvelope, Executed, Step, RequestedWrite, Branding.ApplyWrite;
    PostOutcome(db, ctx, body, now, later);
    var x := Executed(db, ctx, Message(body, now, later));
    if x.Some? {
      var m := x.value.message;
      var row := DedupRow(ctx.platform.sha256Hex(x.value.signedText), VALIDATED_MARK, PyInt(now));
      var ready := db.(dedup := Prune(db.dedup, PyInt(now) - ctx.settings.replayWindow)[m.messageId := row]);
      RegistryFrame(db, ready);
      DispatchWritesUsers(ready, ctx, m, PyInt(later));
      ExecutionTime(db, ctx, Message(body, now, later));
    }
  }

  lemma ExecutionTime(db: Db, ctx: Context, e: Event)
    requires Executed(db, ctx, e).Some?
    ensures e.Message? && Executed(db, ctx, e).value.at == e.now
  {
    hide Validate, Dispatch;
  }

  lemma NoExecution(db: Db, ctx: Context, e: Event)
    requires !e.Message?
    ensures Executed(db, ctx, e).None?
  {
    hide Validate, Dispatch;
  }

  /** An executed entry is a message, and what ran is what was presented. */
  lemma ExecutedIsPresented(t: Trace, i: nat)
    requires IsRun(t) && i < |t.entries| && t.entries[i].executed
    ensures
      var n := t.entries[i];
      n.event.Message? && n.presented.Some? && n.presented.value.at == n.event.now
      && Executed(DbAt(t, i), t.ctx, n.event) == n.presented
  {
    hide Step, PresentedBy, Executed, StateOk, RegistryOk, DedupOk;
    EntryIsStep(t, i);
    ReachableStateOk(t, i);
    StateParts(DbAt(t, i), t.ctx.platform);
    var e := t.entries[i].event;
    ExecutionTime(DbAt(t, i), t.ctx, e);
    MessageWritesUsers(DbAt(t, i), t.ctx, e.body, e.now, e.later);
  }

  lemma EntryWritesUsers(t: Trace, i: nat)
    requires IsRun(t) && i < |t.entries|
    ensures
      var w := CommittedWrite(t.ctx, t.entries[i]);
      DbAt(t, i + 1).users == if w.Some? then Branding.ApplyWrite(DbAt(t, i).users, w.value) else DbAt(t, i).users
  {
    hide Step, PresentedBy, Executed, StateOk, RegistryOk, DedupOk, RequestedWrite, Branding.ApplyWrite;
    EntryIsStep(t, i);
    ReachableStateOk(t, i);
    StateParts(DbAt(t, i), t.ctx.platform);
    var n := t.entries[i];
    if n.event.Message? {
      MessageWritesUsers(DbAt(t, i), t.ctx, n.event.body, n.event.now, n.event.later);
      if n.executed { ExecutedIsPresented(t, i); }
    } else {
      WizardKeepsOthers(DbAt(t, i), t.ctx, n.event);
      NoExecution(DbAt(t, i), t.ctx, n.event);
    }
  }

  /** The user table of any reachable state is the committed writes so far, applied in order. */
  lemma {:induction false} UsersAreCommittedWrites(t: Trace, k: nat)
    requires IsRun(t) && k <= |t.entries|
    ensures DbAt(t, k).users == Branding.ApplyAll(CommittedWrites(t, k))
  {
    hide IsRun, CommittedWrite, Branding.ApplyWrite;
    if k > 0 {
      UsersAreCommittedWrites(t, k - 1);
      EntryWritesUsers(t, k - 1);
      var w := CommittedWrite(t.ctx, t.entries[k - 1]);
      var before := CommittedWrites(t, k - 1);
      if w.Some? { assert (before + [w.value])[..|before|] == before; } else { assert before + [] == before; }
    }
  }

  /** In any state of a run in which a key has written, reading by that key returns the last image and the last description
      committed for it, whatever other writes were interleaved. */
  lemma RunReadsReturnLastWrites(t: Trace, k: nat, m: Inbound, key: string)
    requires IsRun(t) && k <= |t.entries| && Branding.Wrote(CommittedWrites(t, k), key)
    requires Branding.ParseUserQuery(m.payload) == Success(Branding.ByKey(key))
    ensures
      var db := DbAt(t, k);
      var writes := CommittedWrites(t, k);
      var description := Branding.GetUserDescription(db, m);
      && Branding.GetUserImage(db, t.ctx.platform, m)
         == Success(Branding.ImageReply(None, key, Branding.LastImage(writes, key), t.ctx.platform, "entity"))
      && description.Success?
      && Field(description.value.payload, "description") == Some(Branding.StrOrNull(Branding.LastDescription(writes, key)))
  {
    hide *;
    UsersAreCommittedWrites(t, k);
    Branding.ReadsReturnLastWrites(DbAt(t, k), t.ctx.platform, CommittedWrites(t, k), m, key);
  }

  // ---- refusals and failing resets ------------------------------------------------------------

  /** A refused event leaves the committed tables of the run unchanged; a reset never fails for lack of a label. */
  lemma RefusalsInRuns(t: Trace, i: nat)
    requires IsRun(t) && i < |t.entries|
    ensures t.entries[i].response.Refused? ==> DbAt(t, i + 1) == DbAt(t, i)
    ensures t.entries[i].event.ResetCommand? ==> t.entries[i].response != Refused(GenesisResetRejected)
  {
    hide IsRun, Step, PresentedBy, Executed, StateOk;
    EntryIsStep(t, i);
    RefusedChangesNothing(DbAt(t, i), t.ctx, t.entries[i].event);
    ReachableStateOk(t, i);
    if t.entries[i].event.ResetCommand? { ResetResponse(DbAt(t, i), t.ctx, t.entries[i].event); }
  }

  lemma ResetResponse(db: Db, ctx: Context, e: Event)
    requires StateOk(db, ctx.platform) && e.ResetCommand?
    ensures Step(db, ctx, e).1 != Refused(GenesisResetRejected)
  {
    hide Genesis.Reset, RegistryOk, DedupOk, ChallengesOk, GenesisOk, Post;
    ResetNeverLacksLabel(db, PyInt(e.now), e.override);
  }
}
