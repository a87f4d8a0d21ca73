// The `report_module_state` detail document: schema v2 checks and normalisation.
// Every rejection carries the same error code, so the checks are one predicate.
module ModuleState {
  import opened Wrappers
  import opened Errors
  import opened Text
  import opened Doubles
  import opened Numbers
  import opened Json
  import opened JsonRoundTrip
  import opened Canonical
  import opened Database
  import opened Registry

  const MAX_DETAIL_CHARS := 16384
  const MAX_CARDS := 10
  const MAX_PIES := 4
  const MAX_SLICES := 5
  const MAX_DESCRIPTION_CHARS := 280
  const MAX_AUX_LABEL := 40
  const SERIES_LENGTH := 24

  function MetricKeys(): seq<string> {
    ["total_users", "active_users", "subscribers", "validators", "providers", "active_jobs"]
  }

  // ---- scalars --------------------------------------------------------------------

  /** `x < 0`; the negative zero is not. */
  predicate IsNegative(x: Decimal) { x.neg && x.m != 0 }

  /** `_json_nonneg_int`: an integer, or a float without a fraction; never a boolean. */
  function NonNegInt(v: Option<Json>): Option<nat> {
    match v
    case Some(Int(n)) => if n >= 0 then Some(n) else None
    case Some(Float(x)) => if IsNegative(x) then None else WholeMagnitude(x)
    case _ => None
  }

  function Percent(v: Option<Json>): Option<nat> {
    match NonNegInt(v)
    case Some(n) => if n <= 100 then Some(n) else None
    case None => None
  }

  predicate IsText(v: Option<Json>) { v.Some? && v.value.Str? }

  /** A string that is not blank to Python. */
  predicate IsVisibleText(v: Option<Json>) { IsText(v) && Strip(v.value.s) != "" }

  // ---- sections ---------------------------------------------------------------------

  predicate ValidMetrics(v: Option<Json>) {
    v.Some? && v.value.Obj? && forall i | 0 <= i < 6 :: NonNegInt(Get(v.value, MetricKeys()[i])).Some?
  }

  predicate ValidStatus(v: Option<Json>) {
    v.Some? && v.value.Obj? &&
    var a, p, o := Percent(Get(v.value, "active")), Percent(Get(v.value, "passive")), Percent(Get(v.value, "offline"));
    a.Some? && p.Some? && o.Some? && a.value + p.value + o.value == 100
  }

  predicate ValidCard(c: Json) {
    c.Obj? && IsVisibleText(Get(c, "title")) && NonNegInt(Get(c, "value")).Some?
    && IsVisibleText(Get(c, "description")) && |Get(c, "description").value.s| <= MAX_DESCRIPTION_CHARS
  }

  predicate ValidCards(v: Option<Json>) {
    v.Some? && v.value.Arr? && 1 <= |v.value.items| <= MAX_CARDS
    && forall i | 0 <= i < |v.value.items| :: ValidCard(v.value.items[i])
  }

  predicate ValidSlice(s: Json) {
    s.Obj? && IsVisibleText(Get(s, "label")) && Percent(Get(s, "percent")).Some?
  }

  function PercentSum(slices: seq<Json>): nat
    requires forall i | 0 <= i < |slices| :: ValidSlice(slices[i])
  {
    if |slices| == 0 then 0
    else
      assert ValidSlice(slices[|slices| - 1]);
      PercentSum(slices[..|slices| - 1]) + Percent(Get(slices[|slices| - 1], "percent")).value
  }

  predicate ValidSlices(v: Option<Json>) {
    v.Some? && v.value.Arr? && 1 <= |v.value.items| <= MAX_SLICES
    && (forall i | 0 <= i < |v.value.items| :: ValidSlice(v.value.items[i]))
    && PercentSum(v.value.items) == 100
  }

  predicate ValidPie(p: Json) {
    p.Obj? && IsVisibleText(Get(p, "metric_name")) && NonNegInt(Get(p, "total")).Some?
    && ValidPieDescription(Get(p, "description")) && ValidSlices(Get(p, "slices"))
  }

  predicate ValidPieDescription(v: Option<Json>) {
    v.None? || v.value.Null? || (v.value.Str? && |v.value.s| <= MAX_DESCRIPTION_CHARS)
  }

  predicate ValidPies(v: Option<Json>) {
    v.Some? && v.value.Arr? && |v.value.items| <= MAX_PIES
    && forall i | 0 <= i < |v.value.items| :: ValidPie(v.value.items[i])
  }

  predicate ValidNotes(v: Option<Json>) { v.None? || v.value.Null? || v.value.Str? }

  // ---- hourly series ------------------------------------------------------------------

  /** A number that `float()` accepts and that is not negative. */
  predicate ValidPoint(p: Json) {
    (p.Int? && p.n >= 0 && ToDouble(false, p.n, 0).Some?) || (p.Float? && !IsNegative(p.x))
  }

  predicate ValidPoints(v: Option<Json>) {
    v.Some? && v.value.Arr? && |v.value.items| == SERIES_LENGTH
    && forall i | 0 <= i < SERIES_LENGTH :: ValidPoint(v.value.items[i])
  }

  /** `float(p)`: for an integer the nearest double. */
  function AsFloat(p: Json): Json {
    if p.Int? && p.n >= 0 && ToDouble(false, p.n, 0).Some? then Float(ToDouble(false, p.n, 0).value) else p
  }

  function AsFloats(items: seq<Json>): (r: seq<Json>)
    ensures |r| == |items| && forall i | 0 <= i < |items| :: r[i] == AsFloat(items[i])
  {
    seq(|items|, i requires 0 <= i < |items| => AsFloat(items[i]))
  }

  predicate ValidAuxLabel(v: Option<Json>) { IsVisibleText(v) && |Strip(v.value.s)| <= MAX_AUX_LABEL }

  predicate ValidHealth(v: Option<Json>) {
    v.Some? && v.value.Obj? && Get(v.value, "granularity_hours") == Some(Int(1))
    && ValidPoints(Get(v.value, "jobs_points"))
    && ValidAuxLabel(Get(v.value, "aux1_label")) && ValidPoints(Get(v.value, "aux1_points"))
    && ValidAuxLabel(Get(v.value, "aux2_label")) && ValidPoints(Get(v.value, "aux2_points"))
  }

  function AllowedHealthKeys(): set<string> {
    {"granularity_hours", "jobs_points", "aux1_label", "aux1_points", "aux2_label", "aux2_points"}
  }

  /** The keys a warning is raised for, in order. */
  function UnknownHealthKeys(h: Json): seq<string>
    requires h.Obj?
  {
    SortedNames(set i | 0 <= i < |h.members| && h.members[i].key !in AllowedHealthKeys() :: h.members[i].key)
  }

  datatype Health = Health(jobs: seq<Json>, label1: string, points1: seq<Json>, label2: string, points2: seq<Json>)

  function ReadHealth(h: Json): Health
    requires ValidHealth(Some(h))
  {
    Health(AsFloats(Get(h, "jobs_points").value.items),
           Strip(Get(h, "aux1_label").value.s), AsFloats(Get(h, "aux1_points").value.items),
           Strip(Get(h, "aux2_label").value.s), AsFloats(Get(h, "aux2_points").value.items))
  }

  function HealthPairs(h: Health): seq<Member> {
    [ Member("aux1_label", Str(h.label1)), Member("aux1_points", Arr(h.points1)), Member("aux2_label", Str(h.label2)),
      Member("aux2_points", Arr(h.points2)), Member("granularity_hours", Int(1)), Member("jobs_points", Arr(h.jobs))]
  }

  function HealthObject(h: Health): Json { Obj(Dict(HealthPairs(h))) }

  // ---- the document ---------------------------------------------------------------------

  predicate ValidDetail(root: Json) {
    root.Obj?
    && Get(root, "schema_version") == Some(Int(2))
    && ValidMetrics(Get(root, "metrics"))
    && ValidStatus(Get(root, "validator_status_pct"))
    && ValidHealth(Get(root, "health_activity_24h"))
    && ValidCards(Get(root, "dashboard_cards"))
    && ValidPies(Get(root, "dashboard_pies"))
    && ValidNotes(Get(root, "notes"))
  }

  /** The document with its health section rebuilt. */
  function Rebuilt(root: Json): Json
    requires ValidDetail(root)
  {
    Obj(Put(root.members, "health_activity_24h", HealthObject(ReadHealth(Get(root, "health_activity_24h").value))))
  }

  function NormalText(root: Json): string
    requires ValidDetail(root)
  {
    Render(Canon(Rebuilt(root)), PythonAscii)
  }

  /** The stored text, and the removed keys the reply warns of. */
  datatype Normalized = Normalized(text: string, removed: seq<string>)

  /** `_normalize_module_state_detail_json` */
  function Normalize(detail: string): Result<Normalized, ErrorCode> {
    var s := Strip(detail);
    if s == "" || |s| > MAX_DETAIL_CHARS then Failure(PayloadInvalid)
    else match Parse(s)
      case None => Failure(PayloadInvalid)
      case Some(root) =>
        if !ValidDetail(root) || |NormalText(root)| > MAX_DETAIL_CHARS then Failure(PayloadInvalid)
        else Success(Normalized(NormalText(root), UnknownHealthKeys(Get(root, "health_activity_24h").value)))
  }

  // ---- the checking loops -----------------------------------------------------------------

  method CheckCards(v: Option<Json>) returns (ok: bool)
    ensures ok == ValidCards(v)
  {
    hide ValidCard;
    if v.None? || !v.value.Arr? { return false; }
    var items := v.value.items;
    if |items| < 1 || |items| > MAX_CARDS { return false; }
    for i := 0 to |items|
      invariant forall j | 0 <= j < i :: ValidCard(items[j])
    {
      if !ValidCard(items[i]) { return false; }
    }
    return true;
  }

  lemma VisibleIsText(v: Option<Json>)
    ensures IsVisibleText(v) ==> IsText(v)
  {
  }

  /** Labels, percentages and their total. */
  method CheckSlices(v: Option<Json>) returns (ok: bool)
    ensures ok == ValidSlices(v)
  {
    hide ValidSlice, Percent, Get;
    if v.None? || !v.value.Arr? { return false; }
    var slices := v.value.items;
    if |slices| < 1 || |slices| > MAX_SLICES { return false; }
    var total := 0;
    for j := 0 to |slices|
      invariant forall k | 0 <= k < j :: ValidSlice(slices[k])
      invariant total == PercentSum(slices[..j])
    {
      if !ValidSlice(slices[j]) { return false; }
      SliceHasPercent(slices[j]);
      total := total + Percent(Get(slices[j], "percent")).value;
      assert slices[..j + 1][..j] == slices[..j];
    }
    assert slices[..|slices|] == slices;
    return total == 100;
  }

  lemma SliceHasPercent(s: Json)
    requires ValidSlice(s)
    ensures Percent(Get(s, "percent")).Some?
  {
  }

  method CheckPies(v: Option<Json>) returns (ok: bool)
    ensures ok == ValidPies(v)
  {
    hide NonNegInt, IsVisibleText, ValidSlices, ValidPieDescription;
    if v.None? || !v.value.Arr? || |v.value.items| > MAX_PIES { return false; }
    var items := v.value.items;
    for i := 0 to |items|
      invariant forall j | 0 <= j < i :: ValidPie(items[j])
    {
      var p := items[i];
      if !p.Obj? || !IsVisibleText(Get(p, "metric_name")) { return false; }
      if NonNegInt(Get(p, "total")).None? || !ValidPieDescription(Get(p, "description")) { return false; }
      var slicesOk := CheckSlices(Get(p, "slices"));
      if !slicesOk { return false; }
    }
    return true;
  }

  /** Twenty-four non-negative samples, converted one by one. */
  method HealthPoints(v: Option<Json>) returns (out: Option<seq<Json>>)
    ensures out.Some? <==> ValidPoints(v)
    ensures out.Some? ==> out.value == AsFloats(v.value.items)
  {
    if v.None? || !v.value.Arr? || |v.value.items| != SERIES_LENGTH { return None; }
    var pts := v.value.items;
    var acc := [];
    for i := 0 to |pts|
      invariant |acc| == i
      invariant forall j | 0 <= j < i :: ValidPoint(pts[j]) && acc[j] == AsFloat(pts[j])
    {
      if !ValidPoint(pts[i]) { return None; }
      acc := acc + [AsFloat(pts[i])];
    }
    assert acc == AsFloats(pts);
    return Some(acc);
  }

  /** The whole normaliser, section by section. */
  method NormalizeDetail(detail: string) returns (r: Result<Normalized, ErrorCode>)
    ensures r == Normalize(detail)
  {
    hide ValidMetrics, ValidStatus, ValidCards, ValidPies, ValidNotes, ValidPoints, ValidAuxLabel, Get, Strip, Parse, NormalText,
         UnknownHealthKeys;
    var s := Strip(detail);
    if s == "" || |s| > MAX_DETAIL_CHARS { return Failure(PayloadInvalid); }
    var parsed := Parse(s);
    if parsed.None? || !parsed.value.Obj? { return Failure(PayloadInvalid); }
    var root := parsed.value;
    if Get(root, "schema_version") != Some(Int(2)) || !ValidMetrics(Get(root, "metrics"))
       || !ValidStatus(Get(root, "validator_status_pct")) { return Failure(PayloadInvalid); }
    var health := Get(root, "health_activity_24h");
    if health.None? || !health.value.Obj? || Get(health.value, "granularity_hours") != Some(Int(1)) {
      return Failure(PayloadInvalid);
    }
    var jobs := HealthPoints(Get(health.value, "jobs_points"));
    if jobs.None? || !ValidAuxLabel(Get(health.value, "aux1_label")) { return Failure(PayloadInvalid); }
    var points1 := HealthPoints(Get(health.value, "aux1_points"));
    if points1.None? || !ValidAuxLabel(Get(health.value, "aux2_label")) { return Failure(PayloadInvalid); }
    var points2 := HealthPoints(Get(health.value, "aux2_points"));
    if points2.None? { return Failure(PayloadInvalid); }
    var cardsOk := CheckCards(Get(root, "dashboard_cards"));
    if !cardsOk { return Failure(PayloadInvalid); }
    var piesOk := CheckPies(Get(root, "dashboard_pies"));
    if !piesOk || !ValidNotes(Get(root, "notes")) { return Failure(PayloadInvalid); }
    var text := NormalText(root);
    if |text| > MAX_DETAIL_CHARS { return Failure(PayloadInvalid); }
    return Success(Normalized(text, UnknownHealthKeys(health.value)));
  }

  // ---- report_module_state and get_module_state --------------------------------------------------

  predicate IsPhase(s: string) { s in {"running", "syncing", "degraded", "maintenance"} }

  function ParseReport(m: Inbound): Result<(string, string, Normalized), ErrorCode> {
    var id :- ParseModuleName(m.payload, "module_id");
    var phase :- RequireStr(m.payload, "state_phase");
    if !IsPhase(Lower(phase)) then Failure(InvalidStatus)
    else
      var raw :- RequireStr(m.payload, "detail");
      var n :- Normalize(raw);
      Success((id, Lower(phase), n))
  }

  /** Store the latest snapshot of a module, sent with the module's own key. */
  function ReportState(db: Db, platform: Platform, m: Inbound, now: int): (Db, Outcome) {
    match ParseReport(m)
    case Failure(e) => (db, Failure(e))
    case Success((id, phase, n)) =>
      if id !in db.modules then (db, Failure(ModuleNotFound))
      else if db.modules[id].signingKey != m.senderKey then (db, Failure(IdentityMismatch))
      else
        (db.(snapshots := db.snapshots[db.modules[id].moduleName := SnapshotRow(phase, n.text, now)]),
         Success(ReportReply(platform, db.modules[id].moduleName, phase, n, now)))
  }

  function Strings(texts: seq<string>): JsonValue { Arr(seq(|texts|, i requires 0 <= i < |texts| => JStr(texts[i]))) }

  /** The soft warnings, one for each removed key. */
  function Warnings(platform: Platform, removed: seq<string>): seq<string> {
    seq(|removed|, i requires 0 <= i < |removed| =>
      "Removed unsupported payload.detail.health_activity_24h field " + platform.quoted(removed[i]))
  }

  function ReportReply(platform: Platform, name: string, phase: string, n: Normalized, now: int): Reply {
    var base := [Pair("module_id", JStr(name)), Pair("state_phase", JStr(phase)), Pair("detail", JStr(n.text)),
                 Pair("reported_at", JInt(now))];
    var warned := if |n.removed| > 0 then base + [Pair("warnings", Strings(Warnings(platform, n.removed)))] else base;
    Reply("MODULE_STATE_REPORTED", ObjectOf(warned))
  }

  method HandleReportState(conn: Connection, platform: Platform, m: Inbound, now: int) returns (r: Outcome)
    modifies conn`working
    ensures (conn.working, r) == ReportState(old(conn.working), platform, m, now)
  {
    hide ParseModuleName, RequireStr, Normalize, ReportReply, IsPhase, Lower;
    var id :- ParseModuleName(m.payload, "module_id");
    var phase :- RequireStr(m.payload, "state_phase");
    if !IsPhase(Lower(phase)) { return Failure(InvalidStatus); }
    var raw :- RequireStr(m.payload, "detail");
    var n :- NormalizeDetail(raw);
    if id !in conn.working.modules { return Failure(ModuleNotFound); }
    var row := conn.working.modules[id];
    if row.signingKey != m.senderKey { return Failure(IdentityMismatch); }
    var snapshot := SnapshotRow(Lower(phase), n.text, now);
    conn.working := conn.working.(snapshots := conn.working.snapshots[row.moduleName := snapshot]);
    return Success(ReportReply(platform, row.moduleName, Lower(phase), n, now));
  }

  function GetState(db: Db, m: Inbound): Outcome {
    var id :- ParseModuleName(m.payload, "module_id");
    if id != CORE_MODULE && id !in db.modules then Failure(ModuleNotFound)
    else
      var name := if id == CORE_MODULE then id else db.modules[id].moduleName;
      var found := name in db.snapshots;
      Success(Reply("MODULE_STATE_SNAPSHOT_RETURNED", ObjectOf([
        Pair("module_id", JStr(name)), Pair("state_phase", if found then JStr(db.snapshots[name].phase) else Null),
        Pair("detail", if found then JStr(db.snapshots[name].detail) else Null),
        Pair("reported_at", if found then JInt(db.snapshots[name].reportedAt) else Null)])))
  }

  // ---- the checks do not depend on key order ------------------------------------------------

  function CanonOption(v: Option<Json>): Option<Json> { if v.Some? then Some(Canon(v.value)) else None }

  lemma GetCanon(v: Json, key: string)
    requires WellFormed(v)
    ensures Get(Canon(v), key) == CanonOption(Get(v, key))
    ensures Get(v, key).Some? ==> WellFormed(Get(v, key).value)
  {
    GetOfCanon(v, key);
    if Get(v, key).Some? {
      var i :| 0 <= i < |v.members| && v.members[i] == Member(key, Get(v, key).value);
    }
  }

  lemma ScalarsOfCanon(v: Option<Json>)
    ensures NonNegInt(CanonOption(v)) == NonNegInt(v) && Percent(CanonOption(v)) == Percent(v)
    ensures IsVisibleText(CanonOption(v)) == IsVisibleText(v) && ValidPieDescription(CanonOption(v)) == ValidPieDescription(v)
    ensures ValidAuxLabel(CanonOption(v)) == ValidAuxLabel(v) && ValidNotes(CanonOption(v)) == ValidNotes(v)
    ensures IsText(v) ==> CanonOption(v) == v
  {
  }

  lemma CardOfCanon(c: Json)
    requires WellFormed(c)
    ensures ValidCard(Canon(c)) == ValidCard(c)
  {
    hide NonNegInt, IsVisibleText, Get, WellFormed;
    GetCanon(c, "title");
    GetCanon(c, "value");
    GetCanon(c, "description");
    ScalarsOfCanon(Get(c, "title"));
    ScalarsOfCanon(Get(c, "value"));
    ScalarsOfCanon(Get(c, "description"));
    VisibleIsText(Get(c, "description"));
  }

  lemma SliceOfCanon(s: Json)
    requires WellFormed(s)
    ensures ValidSlice(Canon(s)) == ValidSlice(s)
    ensures Percent(Get(Canon(s), "percent")) == Percent(Get(s, "percent"))
  {
    hide Percent, IsVisibleText, Get, WellFormed;
    GetCanon(s, "label");
    GetCanon(s, "percent");
    ScalarsOfCanon(Get(s, "label"));
    ScalarsOfCanon(Get(s, "percent"));
  }

  lemma {:induction false} PercentSumOfCanon(slices: seq<Json>)
    requires forall i | 0 <= i < |slices| :: WellFormed(slices[i]) && ValidSlice(slices[i]) && ValidSlice(Canon(slices[i]))
    ensures PercentSum(CanonItems(slices)) == PercentSum(slices)
  {
    hide Percent, ValidSlice, WellFormed, Canon;
    if |slices| > 0 {
      var front := slices[..|slices| - 1];
      PercentSumOfCanon(front);
      SliceOfCanon(slices[|slices| - 1]);
      assert CanonItems(slices)[..|slices| - 1] == CanonItems(front);
    }
  }

  lemma SlicesOfCanon(v: Option<Json>)
    requires v.Some? ==> WellFormed(v.value)
    ensures ValidSlices(CanonOption(v)) == ValidSlices(v)
  {
    hide Percent, ValidSlice;
    if v.Some? && v.value.Arr? {
      var items := v.value.items;
      forall i | 0 <= i < |items| ensures ValidSlice(Canon(items[i])) == ValidSlice(items[i]) {
        SliceOfCanon(items[i]);
      }
      if forall i | 0 <= i < |items| :: ValidSlice(items[i]) { PercentSumOfCanon(items); }
    }
  }

  lemma PieOfCanon(p: Json)
    requires WellFormed(p)
    ensures ValidPie(Canon(p)) == ValidPie(p)
  {
    hide NonNegInt, IsVisibleText, ValidSlices, ValidPieDescription, Get, WellFormed;
    GetCanon(p, "metric_name");
    GetCanon(p, "total");
    GetCanon(p, "description");
    GetCanon(p, "slices");
    ScalarsOfCanon(Get(p, "metric_name"));
    ScalarsOfCanon(Get(p, "total"));
    ScalarsOfCanon(Get(p, "description"));
    SlicesOfCanon(Get(p, "slices"));
  }

  lemma SectionsOfCanon(v: Option<Json>)
    requires v.Some? ==> WellFormed(v.value)
    ensures ValidCards(CanonOption(v)) == ValidCards(v)
    ensures ValidPies(CanonOption(v)) == ValidPies(v)
  {
    hide ValidCard, ValidPie;
    if v.Some? && v.value.Arr? {
      var items := v.value.items;
      forall i | 0 <= i < |items|
        ensures ValidCard(Canon(items[i])) == ValidCard(items[i]) && ValidPie(Canon(items[i])) == ValidPie(items[i])
      {
        CardOfCanon(items[i]);
        PieOfCanon(items[i]);
      }
    }
  }

  lemma ObjectsOfCanon(v: Option<Json>)
    requires v.Some? ==> WellFormed(v.value)
    ensures ValidMetrics(CanonOption(v)) == ValidMetrics(v)
    ensures ValidStatus(CanonOption(v)) == ValidStatus(v)
  {
    hide NonNegInt, Percent, Get, WellFormed;
    if v.Some? && v.value.Obj? {
      forall i | 0 <= i < 6
        ensures NonNegInt(Get(Canon(v.value), MetricKeys()[i])) == NonNegInt(Get(v.value, MetricKeys()[i]))
      {
        GetCanon(v.value, MetricKeys()[i]);
        ScalarsOfCanon(Get(v.value, MetricKeys()[i]));
      }
      GetCanon(v.value, "active");
      GetCanon(v.value, "passive");
      GetCanon(v.value, "offline");
      ScalarsOfCanon(Get(v.value, "active"));
      ScalarsOfCanon(Get(v.value, "passive"));
      ScalarsOfCanon(Get(v.value, "offline"));
    }
  }

  // ---- the rebuilt health section --------------------------------------------------------------

  predicate FloatSeries(points: seq<Json>) {
    |points| == SERIES_LENGTH && forall i | 0 <= i < SERIES_LENGTH :: points[i].Float? && IsDouble(points[i].x) && !IsNegative(points[i].x)
  }

  lemma PointsBecomeFloats(v: Option<Json>)
    requires v.Some? && WellFormed(v.value) && ValidPoints(v)
    ensures FloatSeries(AsFloats(v.value.items))
  {
    hide ToDouble, IsDouble;
    forall i | 0 <= i < SERIES_LENGTH
      ensures AsFloat(v.value.items[i]).Float? && IsDouble(AsFloat(v.value.items[i]).x) && !IsNegative(AsFloat(v.value.items[i]).x)
    {
      assert WellFormed(v.value.items[i]) && ValidPoint(v.value.items[i]);
    }
  }

  predicate HealthOk(h: Health) {
    FloatSeries(h.jobs) && FloatSeries(h.points1) && FloatSeries(h.points2)
    && Trimmed(h.label1, IsPySpace) && 0 < |h.label1| <= MAX_AUX_LABEL
    && Trimmed(h.label2, IsPySpace) && 0 < |h.label2| <= MAX_AUX_LABEL
  }

  lemma ReadHealthOk(h: Json)
    requires WellFormed(h) && ValidHealth(Some(h))
    ensures HealthOk(ReadHealth(h))
  {
    hide WellFormed, FloatSeries, AsFloats, ValidPoint, Get, Trim;
    GetCanon(h, "jobs_points");
    GetCanon(h, "aux1_points");
    GetCanon(h, "aux2_points");
    PointsBecomeFloats(Get(h, "jobs_points"));
    PointsBecomeFloats(Get(h, "aux1_points"));
    PointsBecomeFloats(Get(h, "aux2_points"));
    TrimIsTrimmed(Get(h, "aux1_label").value.s, IsPySpace);
    TrimIsTrimmed(Get(h, "aux2_label").value.s, IsPySpace);
  }

  lemma FloatSeriesFixed(points: seq<Json>)
    requires FloatSeries(points)
    ensures ValidPoints(Some(Arr(points))) && AsFloats(points) == points
    ensures WellFormed(Arr(points)) && Canon(Arr(points)) == Arr(points)
  {
    assert CanonItems(points) == points;
  }

  lemma RebuiltHealthIsValid(h: Health)
    requires HealthOk(h)
    ensures ValidHealth(Some(Canon(HealthObject(h))))
  {
    hide HealthObject, FloatSeries, Get, WellFormed, ValidPoints, AsFloats, Trim, Canon;
    HealthFields(h);
    TrimIsTrimmed(h.label1, IsPySpace);
    TrimIsTrimmed(h.label2, IsPySpace);
    FloatSeriesFixed(h.jobs);
    FloatSeriesFixed(h.points1);
    FloatSeriesFixed(h.points2);
  }

  /** Reading back a rebuilt section, in canonical key order, gives the same section and no unknown keys. */
  lemma RebuiltHealthIsFixed(h: Health)
    requires HealthOk(h)
    ensures
      var o := HealthObject(h);
      && WellFormed(o) && ValidHealth(Some(Canon(o))) && ReadHealth(Canon(o)) == h
      && UnknownHealthKeys(Canon(o)) == []
  {
    hide HealthObject, FloatSeries, Get, WellFormed, ValidHealth, AsFloats, Trim, Canon, UnknownHealthKeys;
    RebuiltHealthIsValid(h);
    HealthPairsWellFormed(h);
    HealthFields(h);
    TrimIsTrimmed(h.label1, IsPySpace);
    TrimIsTrimmed(h.label2, IsPySpace);
    FloatSeriesFixed(h.jobs);
    FloatSeriesFixed(h.points1);
    FloatSeriesFixed(h.points2);
    KnownKeysOnly(h);
  }

  lemma HealthPairsWellFormed(h: Health)
    requires HealthOk(h)
    ensures WellFormed(HealthObject(h))
  {
    hide FloatSeries, Dict;
    FloatSeriesFixed(h.jobs);
    FloatSeriesFixed(h.points1);
    FloatSeriesFixed(h.points2);
    DictWellFormed(HealthPairs(h));
  }

  lemma HealthFields(h: Health)
    requires HealthOk(h)
    ensures
      var o := Canon(HealthObject(h));
      && o.Obj? && Get(o, "granularity_hours") == Some(Int(1))
      && Get(o, "jobs_points") == Some(Arr(h.jobs))
      && Get(o, "aux1_label") == Some(Str(h.label1)) && Get(o, "aux1_points") == Some(Arr(h.points1))
      && Get(o, "aux2_label") == Some(Str(h.label2)) && Get(o, "aux2_points") == Some(Arr(h.points2))
  {
    hide FloatSeries, Dict, Find, Get, WellFormed;
    var o := HealthObject(h);
    HealthPairsWellFormed(h);
    forall i | 0 <= i < 6 ensures Get(Canon(o), HealthPairs(h)[i].key) == Some(Canon(HealthPairs(h)[i].value)) {
      FindDict(HealthPairs(h), i);
      GetCanon(o, HealthPairs(h)[i].key);
      GetIsFind(Dict(HealthPairs(h)), HealthPairs(h)[i].key);
    }
    FloatSeriesFixed(h.jobs);
    FloatSeriesFixed(h.points1);
    FloatSeriesFixed(h.points2);
    assert HealthPairs(h)[0].key == "aux1_label" && HealthPairs(h)[1].key == "aux1_points" && HealthPairs(h)[2].key == "aux2_label";
    assert HealthPairs(h)[3].key == "aux2_points" && HealthPairs(h)[4].key == "granularity_hours" && HealthPairs(h)[5].key == "jobs_points";
  }

  lemma GetIsFind(ms: seq<Member>, key: string)
    ensures Get(Obj(ms), key) == Find(ms, key)
  {
  }

  lemma {:induction false} DictKeys(pairs: seq<Member>, m: Member)
    requires m in Dict(pairs)
    ensures exists i :: 0 <= i < |pairs| && pairs[i].key == m.key
  {
    if |pairs| > 0 {
      var last := pairs[|pairs| - 1];
      var front := pairs[..|pairs| - 1];
      if m.key == last.key {
      } else {
        PutKeys(Dict(front), last.key, last.value, m);
        DictKeys(front, m);
        var i :| 0 <= i < |front| && front[i].key == m.key;
        assert pairs[i].key == m.key;
      }
    }
  }

  lemma {:induction false} PutKeys(ms: seq<Member>, key: string, value: Json, m: Member)
    requires m in Put(ms, key, value) && m.key != key
    ensures m in ms
  {
    if |ms| > 0 {
      assert ms == [ms[0]] + ms[1..];
      if ms[0].key != key && m != ms[0] { PutKeys(ms[1..], key, value, m); }
    }
  }

  lemma KnownKeysOnly(h: Health)
    requires HealthOk(h)
    ensures Canon(HealthObject(h)).Obj? && UnknownHealthKeys(Canon(HealthObject(h))) == []
  {
    hide FloatSeries, Dict;
    var o := Canon(HealthObject(h));
    forall i | 0 <= i < |o.members| ensures o.members[i].key in AllowedHealthKeys() {
      assert o.members[i] in CanonMembers(Dict(HealthPairs(h)));
      var k :| 0 <= k < |Dict(HealthPairs(h))| && CanonMembers(Dict(HealthPairs(h)))[k] == o.members[i];
      DictKeys(HealthPairs(h), Dict(HealthPairs(h))[k]);
    }
    assert (set i | 0 <= i < |o.members| && o.members[i].key !in AllowedHealthKeys() :: o.members[i].key) == {};
  }

  // ---- normalising twice ------------------------------------------------------------------------

  lemma RebuiltWellFormed(root: Json)
    requires WellFormed(root) && ValidDetail(root)
    ensures WellFormed(Rebuilt(root))
  {
    hide WellFormed, Put, HealthOk, HealthObject, ValidHealth, ValidDetail, Get, ReadHealth;
    HealthSection(root);
    var h := Get(root, "health_activity_24h").value;
    ReadHealthOk(h);
    HealthPairsWellFormed(ReadHealth(h));
    PutKeepsWellFormed(root.members, "health_activity_24h", HealthObject(ReadHealth(h)));
    assert Obj(root.members) == root;
  }

  /** Every other section of the rebuilt document, read in canonical order, is the canonical form of the original one. */
  lemma RebuiltSection(root: Json, key: string)
    requires WellFormed(root) && ValidDetail(root)
    ensures
      Get(Canon(Rebuilt(root)), key) ==
      if key == "health_activity_24h"
      then Some(Canon(HealthObject(ReadHealth(Get(root, "health_activity_24h").value))))
      else CanonOption(Get(root, key))
  {
    hide WellFormed, Put, HealthObject, ValidHealth, ValidDetail, Canon, ReadHealth, Find;
    HealthSection(root);
    RebuiltWellFormed(root);
    GetCanon(Rebuilt(root), key);
    FindPut(root.members, "health_activity_24h", HealthObject(ReadHealth(Get(root, "health_activity_24h").value)), key);
  }

  lemma RebuiltIsValid(root: Json)
    requires WellFormed(root) && ValidDetail(root)
    ensures
      var again := Canon(Rebuilt(root));
      && WellFormed(again) && ValidDetail(again)
      && ReadHealth(Get(again, "health_activity_24h").value) == ReadHealth(Get(root, "health_activity_24h").value)
      && UnknownHealthKeys(Get(again, "health_activity_24h").value) == []
  {
    hide WellFormed, HealthOk, HealthObject, ValidHealth, ValidCards, ValidPies, ValidMetrics,
         ValidStatus, ValidNotes, Rebuilt, Get, ReadHealth, UnknownHealthKeys, Canon;
    HealthSection(root);
    CanonOptionOf(Int(2));
    var h := Get(root, "health_activity_24h").value;
    forall key: string ensures Get(root, key).Some? ==> WellFormed(Get(root, key).value) { GetCanon(root, key); }
    ReadHealthOk(h);
    RebuiltHealthIsFixed(ReadHealth(h));
    RebuiltWellFormed(root);
    CanonWellFormed(Rebuilt(root));
    RebuiltSection(root, "schema_version");
    RebuiltSection(root, "metrics");
    ObjectsOfCanon(Get(root, "metrics"));
    RebuiltSection(root, "validator_status_pct");
    ObjectsOfCanon(Get(root, "validator_status_pct"));
    RebuiltSection(root, "health_activity_24h");
    RebuiltSection(root, "dashboard_cards");
    SectionsOfCanon(Get(root, "dashboard_cards"));
    RebuiltSection(root, "dashboard_pies");
    SectionsOfCanon(Get(root, "dashboard_pies"));
    RebuiltSection(root, "notes");
    ScalarsOfCanon(Get(root, "notes"));
    RebuiltIsObject(root);
  }

  lemma RebuiltIsObject(root: Json)
    requires ValidDetail(root)
    ensures Rebuilt(root).Obj? && Canon(Rebuilt(root)).Obj?
  {
    hide ValidDetail, Put, HealthObject, ReadHealth, Get;
  }

  lemma CanonOptionOf(v: Json)
    requires v.Int?
    ensures CanonOption(Some(v)) == Some(v)
  {
  }

  /** Objects whose members agree canonically have the same canonical form. */
  lemma SameMembersSameCanon(v: Json, w: Json)
    requires v.Obj? && w.Obj? && WellFormed(v) && WellFormed(w)
    requires forall key :: CanonOption(Get(v, key)) == CanonOption(Get(w, key))
    ensures Canon(v) == Canon(w)
  {
    forall i | 0 <= i < |v.members|
      ensures Find(w.members, v.members[i].key).Some? && SameValue(v.members[i].value, Find(w.members, v.members[i].key).value)
    {
      var m := v.members[i];
      FindIsMembership(v.members, m.key, m.value);
      assert CanonOption(Get(v, m.key)) == CanonOption(Get(w, m.key));
      GetCanon(w, m.key);
      SameCanonMeansSameValue(m.value, Get(w, m.key).value);
    }
    forall j | 0 <= j < |w.members| ensures Find(v.members, w.members[j].key).Some? {
      assert Get(w, w.members[j].key).Some?;
      assert CanonOption(Get(v, w.members[j].key)) == CanonOption(Get(w, w.members[j].key));
    }
    SameValueMeansSameCanon(v, w);
  }

  lemma RebuiltTwice(root: Json)
    requires WellFormed(root) && ValidDetail(root)
    ensures
      var again := Canon(Rebuilt(root));
      ValidDetail(again) && Canon(Rebuilt(again)) == again
  {
    hide WellFormed, HealthObject, ValidDetail, Rebuilt, Get, ReadHealth, Canon;
    var once := Rebuilt(root);
    var again := Canon(once);
    RebuiltIsValid(root);
    RebuiltWellFormed(root);
    RebuiltWellFormed(again);
    CanonIdempotent(once);
    forall key: string ensures CanonOption(Get(Rebuilt(again), key)) == CanonOption(Get(again, key)) {
      RebuiltSection(root, key);
      RebuiltSection(again, key);
      GetCanon(Rebuilt(again), key);
      GetCanon(again, key);
    }
    RebuiltIsObject(root);
    RebuiltIsObject(again);
    SameMembersSameCanon(Rebuilt(again), again);
  }

  /** Normalising is idempotent and silent on its own output. */
  lemma NormalizeIsIdempotent(detail: string)
    requires Normalize(detail).Success?
    ensures Normalize(Normalize(detail).value.text) == Success(Normalized(Normalize(detail).value.text, []))
  {
    hide WellFormed, ValidDetail, Rebuilt, ReadHealth, Canon, Parse, Strip, Render, UnknownHealthKeys, Get;
    var root := Parse(Strip(detail)).value;
    ParseWellFormed(Strip(detail));
    var again := Canon(Rebuilt(root));
    RebuiltIsValid(root);
    RebuiltTwice(root);
    ParseOfRender(again, PythonAscii);
    RebuiltIsObject(root);
    RenderedObjectIsTrimmed(again, PythonAscii);
  }

  /** Every accepted report is stored as at most 16384 characters that parse to a valid document: 24 non-negative
      samples in each of the three series, percentages summing to 100, one to ten cards, at most four pies. */
  lemma NormalizedIsValid(detail: string)
    requires Normalize(detail).Success?
    ensures
      var n := Normalize(detail).value;
      var stored := Parse(n.text);
      && |n.text| <= MAX_DETAIL_CHARS && stored.Some? && ValidDetail(stored.value)
      && HealthOk(ReadHealth(Get(stored.value, "health_activity_24h").value))
  {
    hide WellFormed, ValidDetail, Rebuilt, ReadHealth, Canon, Parse, Strip, Render, HealthOk, Get;
    var root := Parse(Strip(detail)).value;
    ParseWellFormed(Strip(detail));
    var again := Canon(Rebuilt(root));
    RebuiltIsValid(root);
    ParseOfRender(again, PythonAscii);
    HealthSection(again);
    ReadHealthOk(Get(again, "health_activity_24h").value);
  }

  lemma HealthSection(root: Json)
    requires WellFormed(root) && ValidDetail(root)
    ensures
      var h := Get(root, "health_activity_24h");
      root.Obj? && h.Some? && WellFormed(h.value) && ValidHealth(h)
  {
    GetCanon(root, "health_activity_24h");
  }
}
