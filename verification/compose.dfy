// The browser's producer of `report_module_state` details, and what the server's normaliser
// makes of its output.
module Compose {
  import opened Wrappers
  import opened Text
  import opened Doubles
  import opened Numbers
  import opened Json
  import opened ModuleState

  const MAX_CUSTOM_CARDS := 4

  datatype CardInput = CardInput(title: string, value: string, description: string)
  datatype SliceInput = SliceInput(name: string, percent: string)
  datatype PieInput = PieInput(metricName: string, total: string, description: string, slices: seq<SliceInput>)
  datatype Dashboard = Dashboard(cards: seq<CardInput>, pies: seq<PieInput>)

  type Form = map<string, string>

  /** `Number(text)` when it is finite. */
  type Reader = string -> Option<Decimal>

  // ---- scalar parsers ----------------------------------------------------------------

  function JsTrim(s: string): string { Trim(s, IsJsSpace) }

  /** `String.prototype.length`: UTF-16 code units. */
  function JsLength(s: string): (n: nat)
    ensures n >= |s|
  {
    if s == "" then 0 else (if s[0] as int >= 0x10000 then 2 else 1) + JsLength(s[1..])
  }

  function FieldText(values: Form, key: string): string { if key in values then JsTrim(values[key]) else "" }

  function NonNegative(s: string): Option<nat> {
    if s != "" && AllDigits(s) && Numeral(s) <= MAX_SAFE_INTEGER then Some(Numeral(s)) else None
  }

  function PercentOf(s: string): Option<nat> {
    if s != "" && AllDigits(s) && |s| <= 3 && Numeral(s) <= 100 then Some(Numeral(s)) else None
  }

  function AuxLabel(s: string): Option<string> {
    if s != "" && JsLength(s) <= MAX_AUX_LABEL then Some(s) else None
  }

  // ---- hourly series -------------------------------------------------------------------

  /** `map(trim).filter(Boolean)` */
  function FilledParts(parts: seq<string>): seq<string> {
    if |parts| == 0 then []
    else (if JsTrim(parts[0]) == "" then [] else [JsTrim(parts[0])]) + FilledParts(parts[1..])
  }

  predicate IsSample(part: string, read: Reader) { read(part).Some? && !IsNegative(read(part).value) }

  /** A double that is not negative, as `JSON.stringify` writes it: the digits alone, filled up with zeros, or a float. */
  function Shown(x: Decimal): Json {
    if StringifiesAsDigits(x) then Int(x.m * Pow(10, if x.m == 0 then 0 else x.p)) else Float(x)
  }

  function Sample(part: string, read: Reader): Json
    requires IsSample(part, read)
  {
    Shown(read(part).value)
  }

  function Samples(parts: seq<string>, read: Reader): (r: seq<Json>)
    requires forall i | 0 <= i < |parts| :: IsSample(parts[i], read)
    ensures |r| == |parts| && forall i | 0 <= i < |parts| :: r[i] == Sample(parts[i], read)
  {
    seq(|parts|, i requires 0 <= i < |parts| => Sample(parts[i], read))
  }

  function Series(s: string, read: Reader): Option<seq<Json>> {
    var parts := FilledParts(Split(s, ','));
    if s != "" && |parts| == SERIES_LENGTH && forall i | 0 <= i < |parts| :: IsSample(parts[i], read)
    then Some(Samples(parts, read)) else None
  }

  /** `parseHealthSeries24Csv` */
  method ParseHealthSeries(s: string, read: Reader) returns (out: Option<seq<Json>>)
    ensures out == Series(s, read)
  {
    hide FilledParts, Split;
    if s == "" { return None; }
    var parts := FilledParts(Split(s, ','));
    if |parts| != SERIES_LENGTH { return None; }
    var points := [];
    for i := 0 to |parts|
      invariant |points| == i
      invariant forall j | 0 <= j < i :: IsSample(parts[j], read) && points[j] == Sample(parts[j], read)
    {
      var x := read(parts[i]);
      if x.None? || IsNegative(x.value) { return None; }
      points := points + [Shown(x.value)];
    }
    assert points == Samples(parts, read);
    return Some(points);
  }

  // ---- dashboard cards -----------------------------------------------------------------

  function FilledCards(cards: seq<CardInput>): seq<CardInput> {
    if |cards| == 0 then [] else (if JsTrim(cards[0].title) == "" then [] else [cards[0]]) + FilledCards(cards[1..])
  }

  predicate CardRowOk(row: CardInput) {
    NonNegative(JsTrim(row.value)).Some? && JsTrim(row.description) != ""
    && JsLength(JsTrim(row.description)) <= MAX_DESCRIPTION_CHARS
  }

  function CardJson(row: CardInput): Json
    requires CardRowOk(row)
  {
    Obj([Member("title", Str(JsTrim(row.title))), Member("value", Int(NonNegative(JsTrim(row.value)).value)),
         Member("description", Str(JsTrim(row.description)))])
  }

  predicate CardsOk(cards: seq<CardInput>) {
    1 <= |FilledCards(cards)| <= MAX_CUSTOM_CARDS && forall i | 0 <= i < |FilledCards(cards)| :: CardRowOk(FilledCards(cards)[i])
  }

  function CardItems(rows: seq<CardInput>): (r: seq<Json>)
    requires forall i | 0 <= i < |rows| :: CardRowOk(rows[i])
    ensures |r| == |rows| && forall i | 0 <= i < |rows| :: r[i] == CardJson(rows[i])
  {
    seq(|rows|, i requires 0 <= i < |rows| => CardJson(rows[i]))
  }

  function CardsJson(cards: seq<CardInput>): Option<seq<Json>> {
    if CardsOk(cards) then Some(CardItems(FilledCards(cards))) else None
  }

  method BuildDashboardCardsJson(cards: seq<CardInput>) returns (out: Option<seq<Json>>)
    ensures out == CardsJson(cards)
  {
    hide FilledCards, NonNegative, JsTrim, JsLength;
    var filled := FilledCards(cards);
    if |filled| == 0 || |filled| > MAX_CUSTOM_CARDS { return None; }
    var items := [];
    for i := 0 to |filled|
      invariant |items| == i
      invariant forall j | 0 <= j < i :: CardRowOk(filled[j]) && items[j] == CardJson(filled[j])
    {
      var row := filled[i];
      var value := NonNegative(JsTrim(row.value));
      if value.None? { return None; }
      var description := JsTrim(row.description);
      if description == "" || JsLength(description) > MAX_DESCRIPTION_CHARS { return None; }
      items := items + [Obj([Member("title", Str(JsTrim(row.title))), Member("value", Int(value.value)),
                             Member("description", Str(description))])];
    }
    assert items == CardItems(filled);
    return Some(items);
  }

  // ---- dashboard pies ------------------------------------------------------------------

  function FilledPies(pies: seq<PieInput>): seq<PieInput> {
    if |pies| == 0 then [] else (if JsTrim(pies[0].metricName) == "" then [] else [pies[0]]) + FilledPies(pies[1..])
  }

  function FilledSlices(slices: seq<SliceInput>): seq<SliceInput> {
    if |slices| == 0 then []
    else (if JsTrim(slices[0].name) == "" || JsTrim(slices[0].percent) == "" then [] else [slices[0]]) + FilledSlices(slices[1..])
  }

  predicate SliceRowOk(row: SliceInput) { PercentOf(JsTrim(row.percent)).Some? }

  function SliceJson(row: SliceInput): Json
    requires SliceRowOk(row)
  {
    Obj([Member("label", Str(JsTrim(row.name))), Member("percent", Int(PercentOf(JsTrim(row.percent)).value))])
  }

  function SliceItems(rows: seq<SliceInput>): (r: seq<Json>)
    requires forall i | 0 <= i < |rows| :: SliceRowOk(rows[i])
    ensures |r| == |rows| && forall i | 0 <= i < |rows| :: r[i] == SliceJson(rows[i])
  {
    seq(|rows|, i requires 0 <= i < |rows| => SliceJson(rows[i]))
  }

  function SumOfPercents(rows: seq<SliceInput>): nat
    requires forall i | 0 <= i < |rows| :: SliceRowOk(rows[i])
  {
    if |rows| == 0 then 0
    else
      assert SliceRowOk(rows[|rows| - 1]);
      SumOfPercents(rows[..|rows| - 1]) + PercentOf(JsTrim(rows[|rows| - 1].percent)).value
  }

  predicate SlicesOk(slices: seq<SliceInput>) {
    var rows := FilledSlices(slices);
    1 <= |rows| <= MAX_SLICES && (forall i | 0 <= i < |rows| :: SliceRowOk(rows[i])) && SumOfPercents(rows) == 100
  }

  predicate PieRowOk(pie: PieInput) {
    NonNegative(JsTrim(pie.total)).Some? && JsLength(JsTrim(pie.description)) <= MAX_DESCRIPTION_CHARS && SlicesOk(pie.slices)
  }

  function TextOrNull(s: string): Json { if s == "" then Null else Str(s) }

  function PieObject(pie: PieInput, total: nat, slices: seq<Json>): Json {
    Obj([Member("metric_name", Str(JsTrim(pie.metricName))), Member("total", Int(total)),
         Member("description", TextOrNull(JsTrim(pie.description))), Member("slices", Arr(slices))])
  }

  function PieJson(pie: PieInput): Json
    requires PieRowOk(pie)
  {
    PieObject(pie, NonNegative(JsTrim(pie.total)).value, SliceItems(FilledSlices(pie.slices)))
  }

  predicate PiesOk(pies: seq<PieInput>) {
    |FilledPies(pies)| <= MAX_PIES && forall i | 0 <= i < |FilledPies(pies)| :: PieRowOk(FilledPies(pies)[i])
  }

  function PieItems(rows: seq<PieInput>): (r: seq<Json>)
    requires forall i | 0 <= i < |rows| :: PieRowOk(rows[i])
    ensures |r| == |rows| && forall i | 0 <= i < |rows| :: r[i] == PieJson(rows[i])
  {
    seq(|rows|, i requires 0 <= i < |rows| => PieJson(rows[i]))
  }

  function PiesJson(pies: seq<PieInput>): Option<seq<Json>> {
    if PiesOk(pies) then Some(PieItems(FilledPies(pies))) else None
  }

  method BuildSlices(slices: seq<SliceInput>) returns (out: Option<seq<Json>>)
    ensures out == if SlicesOk(slices) then Some(SliceItems(FilledSlices(slices))) else None
  {
    hide FilledSlices, PercentOf, JsTrim;
    var rows := FilledSlices(slices);
    if |rows| == 0 || |rows| > MAX_SLICES { return None; }
    var items, sum := [], 0;
    for i := 0 to |rows|
      invariant |items| == i
      invariant forall j | 0 <= j < i :: SliceRowOk(rows[j]) && items[j] == SliceJson(rows[j])
      invariant sum == SumOfPercents(rows[..i])
    {
      var percent := PercentOf(JsTrim(rows[i].percent));
      if percent.None? { return None; }
      sum := sum + percent.value;
      items := items + [Obj([Member("label", Str(JsTrim(rows[i].name))), Member("percent", Int(percent.value))])];
      assert rows[..i + 1][..i] == rows[..i];
    }
    assert rows[..|rows|] == rows;
    assert items == SliceItems(rows);
    return if sum == 100 then Some(items) else None;
  }

  method BuildDashboardPiesJson(pies: seq<PieInput>) returns (out: Option<seq<Json>>)
    ensures out == PiesJson(pies)
  {
    hide FilledPies, NonNegative, JsTrim, JsLength, SlicesOk, PieObject;
    var filled := FilledPies(pies);
    if |filled| > MAX_PIES { return None; }
    var items := [];
    for i := 0 to |filled|
      invariant |items| == i
      invariant forall j | 0 <= j < i :: PieRowOk(filled[j]) && items[j] == PieJson(filled[j])
    {
      var pie := filled[i];
      var total := NonNegative(JsTrim(pie.total));
      if total.None? { return None; }
      if JsLength(JsTrim(pie.description)) > MAX_DESCRIPTION_CHARS { return None; }
      var slices := BuildSlices(pie.slices);
      if slices.None? { return None; }
      items := items + [PieObject(pie, total.value, slices.value)];
    }
    assert items == PieItems(filled);
    return Some(items);
  }

  // ---- the document ------------------------------------------------------------------------

  function FormKeys(): seq<string> {
    ["metric_total_users", "metric_active_users", "metric_subscribers", "metric_validators", "metric_providers", "metric_active_jobs"]
  }

  function Metric(values: Form, i: nat): Option<nat>
    requires i < 6
  {
    NonNegative(FieldText(values, FormKeys()[i]))
  }

  function MetricsJson(values: Form): Json
    requires forall i | 0 <= i < 6 :: Metric(values, i).Some?
  {
    Obj(seq(6, i requires 0 <= i < 6 => Member(MetricKeys()[i], Int(Metric(values, i).value))))
  }

  datatype Status = Status(active: nat, passive: nat, offline: nat)

  function StatusOf(values: Form): Option<Status> {
    var a :- PercentOf(FieldText(values, "val_pct_active"));
    var p :- PercentOf(FieldText(values, "val_pct_passive"));
    var o :- PercentOf(FieldText(values, "val_pct_offline"));
    if a + p + o == 100 then Some(Status(a, p, o)) else None
  }

  function StatusJson(s: Status): Json {
    Obj([Member("active", Int(s.active)), Member("passive", Int(s.passive)), Member("offline", Int(s.offline))])
  }

  function HealthOf(values: Form, read: Reader): Option<Health> {
    var jobs :- Series(FieldText(values, "ha_jobs_csv"), read);
    var label1 :- AuxLabel(FieldText(values, "ha_aux1_label"));
    var points1 :- Series(FieldText(values, "ha_aux1_csv"), read);
    var label2 :- AuxLabel(FieldText(values, "ha_aux2_label"));
    var points2 :- Series(FieldText(values, "ha_aux2_csv"), read);
    Some(Health(jobs, label1, points1, label2, points2))
  }

  function HealthJson(h: Health): Json {
    Obj([Member("granularity_hours", Int(1)), Member("jobs_points", Arr(h.jobs)), Member("aux1_label", Str(h.label1)),
         Member("aux1_points", Arr(h.points1)), Member("aux2_label", Str(h.label2)), Member("aux2_points", Arr(h.points2))])
  }

  function Document(metrics: Json, status: Json, health: Json, cards: seq<Json>, pies: seq<Json>, notes: string): Json {
    var base := [Member("schema_version", Int(2)), Member("metrics", metrics), Member("validator_status_pct", status),
                 Member("health_activity_24h", health), Member("dashboard_cards", Arr(cards)), Member("dashboard_pies", Arr(pies))];
    Obj(if notes == "" then base else base + [Member("notes", Str(notes))])
  }

  /** The object `composeReportModuleStateDetailJson` prints, unless a field is refused. */
  function Root(values: Form, d: Dashboard, read: Reader): Option<Json> {
    if exists i :: 0 <= i < 6 && Metric(values, i).None? then None
    else
      var status :- StatusOf(values);
      var health :- HealthOf(values, read);
      var cards :- CardsJson(d.cards);
      var pies :- PiesJson(d.pies);
      Some(Document(MetricsJson(values), StatusJson(status), HealthJson(health), cards, pies, FieldText(values, "detail_notes")))
  }

  /** The detail text, or none when the form is refused. */
  function Detail(values: Form, d: Dashboard, read: Reader): Option<string> {
    var root :- Root(values, d, read);
    Some(Render(root, Stringify))
  }

  method ComposeReportModuleStateDetailJson(values: Form, d: Dashboard, read: Reader) returns (detail: Option<string>)
    ensures detail == Detail(values, d, read)
  {
    hide Metric, FieldText, PercentOf, Series, AuxLabel, CardsJson, PiesJson, MetricsJson, Document, Render;
    for i := 0 to 6
      invariant forall j | 0 <= j < i :: Metric(values, j).Some?
    {
      if Metric(values, i).None? { return None; }
    }
    var status :- StatusOf(values);
    var jobs := ParseHealthSeries(FieldText(values, "ha_jobs_csv"), read);
    if jobs.None? { return None; }
    var label1 :- AuxLabel(FieldText(values, "ha_aux1_label"));
    var points1 := ParseHealthSeries(FieldText(values, "ha_aux1_csv"), read);
    if points1.None? { return None; }
    var label2 :- AuxLabel(FieldText(values, "ha_aux2_label"));
    var points2 := ParseHealthSeries(FieldText(values, "ha_aux2_csv"), read);
    if points2.None? { return None; }
    var cards := BuildDashboardCardsJson(d.cards);
    if cards.None? { return None; }
    var pies := BuildDashboardPiesJson(d.pies);
    if pies.None? { return None; }
    var health := HealthJson(Health(jobs.value, label1, points1.value, label2, points2.value));
    var root := Document(MetricsJson(values), StatusJson(status), health, cards.value, pies.value, FieldText(values, "detail_notes"));
    return Some(Render(root, Stringify));
  }
}
