// Every detail the browser composes is accepted by the server exactly when the server, too, sees its
// texts as non-blank and the sizes fit. The two runtimes do not trim the same characters.
module ComposeLaws {
  import opened Wrappers
  import opened Text
  import opened Doubles
  import opened Numbers
  import opened Json
  import opened JsonRoundTrip
  import opened Canonical
  import opened ModuleState
  import opened Compose

  /** Number texts read as doubles. */
  ghost predicate ReadsDoubles(read: Reader) {
    forall s :: read(s).Some? ==> IsDouble(read(s).value)
  }

  /** Values that `JSON.stringify` prints and a parser reads back. */
  predicate Writable(v: Json) { WellFormed(v) && Printable(v, Stringify) }

  /** A text the server does not take for blank. */
  predicate Visible(s: string) { Strip(s) != "" }

  predicate CardVisible(row: CardInput) { Visible(JsTrim(row.title)) && Visible(JsTrim(row.description)) }

  predicate PieVisible(pie: PieInput) {
    Visible(JsTrim(pie.metricName))
    && forall i | 0 <= i < |FilledSlices(pie.slices)| :: Visible(JsTrim(FilledSlices(pie.slices)[i].name))
  }

  predicate CardsVisible(cards: seq<CardInput>) {
    forall i | 0 <= i < |FilledCards(cards)| :: CardVisible(FilledCards(cards)[i])
  }

  predicate PiesVisible(pies: seq<PieInput>) {
    forall i | 0 <= i < |FilledPies(pies)| :: PieVisible(FilledPies(pies)[i])
  }

  predicate LabelsVisible(values: Form) {
    Visible(FieldText(values, "ha_aux1_label")) && Visible(FieldText(values, "ha_aux2_label"))
  }

  predicate TextsVisible(values: Form, d: Dashboard) {
    LabelsVisible(values) && CardsVisible(d.cards) && PiesVisible(d.pies)
  }

  // ---- members of the printed objects ------------------------------------------------

  lemma FieldAt(ms: seq<Member>, i: nat)
    requires i < |ms| && DistinctKeys(ms)
    ensures Get(Obj(ms), ms[i].key) == Some(ms[i].value)
  {
    FindIsMembership(ms, ms[i].key, ms[i].value);
  }

  lemma ObjWritable(ms: seq<Member>)
    requires DistinctKeys(ms) && forall i | 0 <= i < |ms| :: Writable(ms[i].value)
    ensures Writable(Obj(ms))
  {
  }

  lemma ScalarWritable(v: Json)
    requires v.Int? || v.Str? || v.Null?
    ensures Writable(v)
  {
  }

  lemma FlatWritable(ms: seq<Member>)
    requires DistinctKeys(ms) && forall i | 0 <= i < |ms| :: ms[i].value.Int? || ms[i].value.Str? || ms[i].value.Null?
    ensures Writable(Obj(ms))
  {
    hide Writable;
    forall i | 0 <= i < |ms| ensures Writable(ms[i].value) { ScalarWritable(ms[i].value); }
    ObjWritable(ms);
  }

  // ---- cards ----------------------------------------------------------------------------

  lemma CardAccepted(row: CardInput)
    requires CardRowOk(row)
    ensures Writable(CardJson(row)) && (ValidCard(CardJson(row)) <==> CardVisible(row))
  {
    hide NonNegative, JsTrim, Strip, Find, Get, Writable;
    var ms := CardJson(row).members;
    assert ms[0].key == "title" && ms[1].key == "value" && ms[2].key == "description";
    FlatWritable(ms);
    FieldAt(ms, 0);
    FieldAt(ms, 1);
    FieldAt(ms, 2);
  }

  lemma CardsAccepted(cards: seq<CardInput>)
    requires CardsJson(cards).Some?
    ensures
      var v := Arr(CardsJson(cards).value);
      Writable(v) && (ValidCards(Some(v)) <==> CardsVisible(cards))
  {
    hide CardRowOk, CardJson, ValidCard, CardVisible, FilledCards, Writable;
    var rows := FilledCards(cards);
    forall i | 0 <= i < |rows| ensures Writable(CardJson(rows[i])) && (ValidCard(CardJson(rows[i])) <==> CardVisible(rows[i])) {
      CardAccepted(rows[i]);
    }
    assert forall i | 0 <= i < |rows| :: CardItems(rows)[i] == CardJson(rows[i]);
    ItemsWritable(CardItems(rows));
  }

  // ---- pies -----------------------------------------------------------------------------

  lemma SliceAccepted(row: SliceInput)
    requires SliceRowOk(row)
    ensures Writable(SliceJson(row)) && (ValidSlice(SliceJson(row)) <==> Visible(JsTrim(row.name)))
    ensures Percent(Get(SliceJson(row), "percent")) == PercentOf(JsTrim(row.percent))
  {
    hide JsTrim, Strip, Find, Get, Numeral, AllDigits, Writable;
    var ms := SliceJson(row).members;
    assert ms[0].key == "label" && ms[1].key == "percent";
    FlatWritable(ms);
    FieldAt(ms, 0);
    FieldAt(ms, 1);
  }

  lemma {:induction false} SumsAgree(rows: seq<SliceInput>)
    requires forall i | 0 <= i < |rows| :: SliceRowOk(rows[i]) && ValidSlice(SliceJson(rows[i]))
    ensures (forall i | 0 <= i < |SliceItems(rows)| :: ValidSlice(SliceItems(rows)[i]))
    ensures PercentSum(SliceItems(rows)) == SumOfPercents(rows)
  {
    hide SliceJson, ValidSlice, Percent, PercentOf, Get, JsTrim;
    if |rows| > 0 {
      var front := rows[..|rows| - 1];
      SumsAgree(front);
      SliceAccepted(rows[|rows| - 1]);
      assert SliceItems(rows)[..|rows| - 1] == SliceItems(front);
    }
  }

  lemma SlicesAccepted(slices: seq<SliceInput>)
    requires SlicesOk(slices)
    ensures
      var v := Arr(SliceItems(FilledSlices(slices)));
      && Writable(v)
      && (ValidSlices(Some(v)) <==> forall i | 0 <= i < |FilledSlices(slices)| :: Visible(JsTrim(FilledSlices(slices)[i].name)))
  {
    hide SliceRowOk, SliceJson, ValidSlice, Visible, JsTrim, FilledSlices;
    var rows := FilledSlices(slices);
    forall i | 0 <= i < |rows|
      ensures Writable(SliceJson(rows[i])) && (ValidSlice(SliceJson(rows[i])) <==> Visible(JsTrim(rows[i].name)))
    {
      SliceAccepted(rows[i]);
    }
    assert forall i | 0 <= i < |rows| :: SliceItems(rows)[i] == SliceJson(rows[i]);
    if forall i | 0 <= i < |rows| :: ValidSlice(SliceJson(rows[i])) { SumsAgree(rows); }
  }

  lemma PieAccepted(pie: PieInput)
    requires PieRowOk(pie)
    ensures Writable(PieJson(pie)) && (ValidPie(PieJson(pie)) <==> PieVisible(pie))
  {
    hide NonNegative, JsTrim, Strip, Find, Get, SlicesOk, FilledSlices, SliceItems, ValidSlices, Writable, JsLength;
    SlicesAccepted(pie.slices);
    var ms := PieJson(pie).members;
    PieKeysDistinct(ms);
    FieldAt(ms, 0);
    FieldAt(ms, 1);
    FieldAt(ms, 2);
    FieldAt(ms, 3);
    forall i | 0 <= i < 3 ensures Writable(ms[i].value) { ScalarWritable(ms[i].value); }
    ObjWritable(ms);
  }

  lemma PieKeysDistinct(ms: seq<Member>)
    requires |ms| == 4 && ms[0].key == "metric_name" && ms[1].key == "total" && ms[2].key == "description" && ms[3].key == "slices"
    ensures DistinctKeys(ms)
  {
    assert |ms[0].key| == 11 == |ms[2].key| && |ms[1].key| == 5 && |ms[3].key| == 6 && ms[0].key[0] == 'm';
  }

  lemma PiesAccepted(pies: seq<PieInput>)
    requires PiesJson(pies).Some?
    ensures
      var v := Arr(PiesJson(pies).value);
      Writable(v) && (ValidPies(Some(v)) <==> PiesVisible(pies))
  {
    hide PieRowOk, PieJson, ValidPie, PieVisible, FilledPies, Writable;
    var rows := FilledPies(pies);
    forall i | 0 <= i < |rows| ensures Writable(PieJson(rows[i])) && (ValidPie(PieJson(rows[i])) <==> PieVisible(rows[i])) {
      PieAccepted(rows[i]);
    }
    assert forall i | 0 <= i < |rows| :: PieItems(rows)[i] == PieJson(rows[i]);
    ItemsWritable(PieItems(rows));
  }

  // ---- metrics, status, health ------------------------------------------------------------

  lemma MetricsAccepted(values: Form)
    requires forall i | 0 <= i < 6 :: Metric(values, i).Some?
    ensures Writable(MetricsJson(values)) && ValidMetrics(Some(MetricsJson(values)))
  {
    hide Metric, Find, Get, Writable;
    var ms := MetricsJson(values).members;
    MetricKeysDistinct();
    assert DistinctKeys(ms);
    FlatWritable(ms);
    forall i | 0 <= i < 6 ensures NonNegInt(Get(MetricsJson(values), MetricKeys()[i])).Some? { FieldAt(ms, i); }
  }

  lemma MetricKeysDistinct()
    ensures forall i, j | 0 <= i < j < 6 :: MetricKeys()[i] != MetricKeys()[j]
  {
    var k := MetricKeys();
    assert k[0][0] == 't' && k[1][7] == 'u' && k[2][0] == 's' && k[3][0] == 'v' && k[4][0] == 'p' && k[5][7] == 'j' && k[1][0] == k[5][0] == 'a';
  }

  lemma StatusAccepted(s: Status)
    requires s.active <= 100 && s.passive <= 100 && s.offline <= 100 && s.active + s.passive + s.offline == 100
    ensures Writable(StatusJson(s)) && ValidStatus(Some(StatusJson(s)))
  {
    hide Find, Get, Writable;
    var ms := StatusJson(s).members;
    assert ms[0].key == "active" && ms[1].key == "passive" && ms[2].key == "offline";
    FlatWritable(ms);
    FieldAt(ms, 0);
    FieldAt(ms, 1);
    FieldAt(ms, 2);
  }

  lemma SeriesAccepted(s: string, read: Reader)
    requires ReadsDoubles(read) && Series(s, read).Some?
    ensures
      var v := Arr(Series(s, read).value);
      Writable(v) && ValidPoints(Some(v))
  {
    hide FilledParts, Split, Writable, ValidPoint, Shown, IsNegative;
    var parts := FilledParts(Split(s, ','));
    forall i | 0 <= i < |parts| ensures Writable(Samples(parts, read)[i]) && ValidPoint(Samples(parts, read)[i]) {
      assert IsSample(parts[i], read);
      ShownReadsBack(read(parts[i]).value);
    }
    ItemsWritable(Samples(parts, read));
  }

  lemma ShownDigitsRead(x: Decimal)
    requires IsDouble(x) && x.m != 0 && !x.neg && x.p >= 0
    ensures ToDouble(false, x.m * Pow(10, x.p), 0) == Some(x)
  {
    hide *;
    ScaledDoubleReads(x, x.m * Pow(10, x.p), x.p);
  }

  lemma ZeroDigitsRead()
    ensures ToDouble(false, 0, 0) == Some(Decimal(false, 0, 0))
  {
    hide ToDouble, IsDouble;
    ZeroIsDouble(false);
    ToDoubleOfDouble(Decimal(false, 0, 0), 0, 0);
  }

  /** Whichever form a sample is written in, the server stores the double the browser read. */
  lemma ShownReadsBack(x: Decimal)
    requires IsDouble(x) && !IsNegative(x)
    ensures Writable(Shown(x)) && ValidPoint(Shown(x))
    ensures AsFloat(Shown(x)) == if x.m == 0 then Float(Decimal(false, 0, 0)) else Float(x)
  {
    hide IsDouble, ToDouble, Magnitude, Pow;
    if x.m == 0 {
      ZeroDigitsRead();
      assert 0 * Pow(10, 0) == 0;
    } else if StringifiesAsDigits(x) {
      ShownDigitsRead(x);
      assert x.m * Pow(10, x.p) >= 0 by { PowPositive(10, x.p); }
    }
  }

  lemma ItemsWritable(items: seq<Json>)
    requires forall i | 0 <= i < |items| :: Writable(items[i])
    ensures Writable(Arr(items))
  {
  }

  lemma StripShortens(s: string)
    ensures |Strip(s)| <= |s|
  {
  }

  lemma HealthAccepted(h: Health)
    requires Writable(Arr(h.jobs)) && Writable(Arr(h.points1)) && Writable(Arr(h.points2))
    requires ValidPoints(Some(Arr(h.jobs))) && ValidPoints(Some(Arr(h.points1))) && ValidPoints(Some(Arr(h.points2)))
    requires |h.label1| <= MAX_AUX_LABEL && |h.label2| <= MAX_AUX_LABEL
    ensures Writable(HealthJson(h)) && (ValidHealth(Some(HealthJson(h))) <==> Visible(h.label1) && Visible(h.label2))
  {
    hide Find, Get, Strip, ValidPoints, Writable;
    StripShortens(h.label1);
    StripShortens(h.label2);
    var ms := HealthJson(h).members;
    assert ms[0].key == "granularity_hours" && ms[1].key == "jobs_points" && ms[2].key == "aux1_label";
    assert ms[3].key == "aux1_points" && ms[4].key == "aux2_label" && ms[5].key == "aux2_points";
    HealthKeysDistinct(h);
    FieldAt(ms, 0);
    FieldAt(ms, 1);
    FieldAt(ms, 2);
    FieldAt(ms, 3);
    FieldAt(ms, 4);
    FieldAt(ms, 5);
    ScalarWritable(ms[0].value);
    ScalarWritable(ms[2].value);
    ScalarWritable(ms[4].value);
    ObjWritable(ms);
  }

  lemma HealthKeysDistinct(h: Health)
    ensures DistinctKeys(HealthJson(h).members)
  {
    var ms := HealthJson(h).members;
    assert ms[2].key[3] == '1' && ms[3].key[3] == '1' && ms[4].key[3] == '2' && ms[5].key[3] == '2';
    assert |ms[2].key| == |ms[4].key| == 10 && |ms[3].key| == |ms[5].key| == |ms[1].key| == 11 && ms[1].key[0] == 'j';
  }

  lemma HealthOfAccepted(values: Form, read: Reader)
    requires ReadsDoubles(read) && HealthOf(values, read).Some?
    ensures
      var h := HealthJson(HealthOf(values, read).value);
      && Writable(h)
      && (ValidHealth(Some(h)) <==> LabelsVisible(values))
  {
    hide Series, FieldText, Visible, ValidHealth, ValidPoints, Writable, HealthJson, ReadsDoubles;
    SeriesAccepted(FieldText(values, "ha_jobs_csv"), read);
    SeriesAccepted(FieldText(values, "ha_aux1_csv"), read);
    SeriesAccepted(FieldText(values, "ha_aux2_csv"), read);
    HealthAccepted(HealthOf(values, read).value);
  }

  lemma StatusOfAccepted(values: Form)
    requires StatusOf(values).Some?
    ensures
      var s := StatusJson(StatusOf(values).value);
      Writable(s) && ValidStatus(Some(s))
  {
    hide FieldText, Numeral, AllDigits, StatusJson, ValidStatus, Writable;
    StatusAccepted(StatusOf(values).value);
  }

  lemma DocumentKeysDistinct(metrics: Json, status: Json, health: Json, cards: seq<Json>, pies: seq<Json>, notes: string)
    ensures DistinctKeys(Document(metrics, status, health, cards, pies, notes).members)
  {
    var ms := Document(metrics, status, health, cards, pies, notes).members;
    assert |ms[0].key| == 14 && |ms[1].key| == 7 && |ms[2].key| == 20 && |ms[3].key| == 19 && |ms[4].key| == 15;
    assert |ms[5].key| == 14 && ms[0].key[0] == 's' && ms[5].key[0] == 'd';
    assert |ms| == 7 ==> |ms[6].key| == 5;
  }

  lemma DocumentAccepted(
    metrics: Json, status: Json, health: Json, cards: seq<Json>, pies: seq<Json>, notes: string)
    requires Writable(metrics) && Writable(status) && Writable(health) && Writable(Arr(cards)) && Writable(Arr(pies))
    requires ValidMetrics(Some(metrics)) && ValidStatus(Some(status))
    ensures
      var root := Document(metrics, status, health, cards, pies, notes);
      && Writable(root) && root.Obj?
      && (ValidDetail(root) <==>
            ValidHealth(Some(health)) && ValidCards(Some(Arr(cards))) && ValidPies(Some(Arr(pies))))
  {
    hide Find, Get, Writable, ValidMetrics, ValidStatus, ValidHealth, ValidCards, ValidPies;
    var root := Document(metrics, status, health, cards, pies, notes);
    var ms := root.members;
    DocumentKeysDistinct(metrics, status, health, cards, pies, notes);
    hide DistinctKeys;
    assert ms[0].key == "schema_version" && ms[1].key == "metrics" && ms[2].key == "validator_status_pct";
    assert ms[3].key == "health_activity_24h" && ms[4].key == "dashboard_cards" && ms[5].key == "dashboard_pies";
    FieldAt(ms, 0);
    FieldAt(ms, 1);
    FieldAt(ms, 2);
    FieldAt(ms, 3);
    FieldAt(ms, 4);
    FieldAt(ms, 5);
    NotesAccepted(root, notes);
    ScalarWritable(Int(2));
    ScalarWritable(Str(notes));
    ObjWritable(ms);
  }

  lemma NotesAccepted(root: Json, notes: string)
    requires root.Obj? && DistinctKeys(root.members) && |root.members| >= 6
    requires root.members[6..] == if notes == "" then [] else [Member("notes", Str(notes))]
    requires forall i | 0 <= i < 6 :: |root.members[i].key| > 5
    ensures ValidNotes(Get(root, "notes"))
  {
    hide Find;
    if notes != "" {
      assert root.members[6] == Member("notes", Str(notes));
      FieldAt(root.members, 6);
    }
  }

  lemma RootParts(values: Form, d: Dashboard, read: Reader)
    requires Root(values, d, read).Some?
    ensures (forall i | 0 <= i < 6 :: Metric(values, i).Some?) && StatusOf(values).Some? && HealthOf(values, read).Some?
    ensures CardsJson(d.cards).Some? && PiesJson(d.pies).Some?
    ensures
      Root(values, d, read).value ==
      Document(MetricsJson(values), StatusJson(StatusOf(values).value), HealthJson(HealthOf(values, read).value),
               CardsJson(d.cards).value, PiesJson(d.pies).value, FieldText(values, "detail_notes"))
  {
    hide Metric, FieldText, CardsJson, PiesJson, HealthJson, StatusJson, MetricsJson,
         HealthOf, StatusOf, Document;
  }

  /** What the browser accepts, the server finds valid exactly when it sees every text as non-blank. */
  lemma RootIsValidIff(values: Form, d: Dashboard, read: Reader)
    requires ReadsDoubles(read) && Root(values, d, read).Some?
    ensures
      var root := Root(values, d, read).value;
      Writable(root) && root.Obj? && (ValidDetail(root) <==> TextsVisible(values, d))
  {
    TextsVisibleIs(values, d);
    hide *;
    RootParts(values, d, read);
    MetricsAccepted(values);
    StatusOfAccepted(values);
    HealthOfAccepted(values, read);
    CardsAccepted(d.cards);
    PiesAccepted(d.pies);
    DocumentAccepted(MetricsJson(values), StatusJson(StatusOf(values).value), HealthJson(HealthOf(values, read).value),
                     CardsJson(d.cards).value, PiesJson(d.pies).value, FieldText(values, "detail_notes"));
  }

  lemma TextsVisibleIs(values: Form, d: Dashboard)
    ensures TextsVisible(values, d) == (LabelsVisible(values) && CardsVisible(d.cards) && PiesVisible(d.pies))
  {
    hide LabelsVisible, CardsVisible, PiesVisible;
  }

  /** A detail the browser composes passes the server's normaliser if and only if the server sees every text as
      non-blank and both the detail and its normalised text fit in 16384 characters. */
  lemma ComposedIsAcceptedIff(values: Form, d: Dashboard, read: Reader)
    requires ReadsDoubles(read) && Detail(values, d, read).Some?
    ensures
      var detail := Detail(values, d, read).value;
      var root := Root(values, d, read).value;
      && (TextsVisible(values, d) ==> ValidDetail(root))
      && (Normalize(detail).Success? <==>
            TextsVisible(values, d) && |detail| <= MAX_DETAIL_CHARS && |NormalText(root)| <= MAX_DETAIL_CHARS)
  {
    hide Root, TextsVisible, ValidDetail, NormalText, Render, Parse, Strip, UnknownHealthKeys, Get, WellFormed, AllNumbers, ReadsDoubles;
    var root := Root(values, d, read).value;
    RootIsValidIff(values, d, read);
    ParseOfRender(root, Stringify);
    RenderedObjectIsTrimmed(root, Stringify);
  }

  // ---- a shared whitespace class ---------------------------------------------------------------

  /** No character only the server would strip. */
  predicate SharedWhitespace(s: string) { forall i | 0 <= i < |s| :: IsPySpace(s[i]) ==> IsJsSpace(s[i]) }

  lemma SharedStaysVisible(s: string)
    requires SharedWhitespace(s) && JsTrim(s) != ""
    ensures Visible(JsTrim(s))
  {
    var l := DropLeft(s, IsJsSpace);
    var t := JsTrim(s);
    TrimIsTrimmed(s, IsJsSpace);
    assert t[0] == l[0] == s[|s| - |l|];
    TrimEmptyIff(t, IsPySpace);
  }

  predicate SharedDashboard(values: Form, d: Dashboard) {
    && (forall key | key in values :: SharedWhitespace(values[key]))
    && (forall i | 0 <= i < |d.cards| :: SharedWhitespace(d.cards[i].title) && SharedWhitespace(d.cards[i].description))
    && (forall i | 0 <= i < |d.pies| ::
          SharedWhitespace(d.pies[i].metricName)
          && forall j | 0 <= j < |d.pies[i].slices| :: SharedWhitespace(d.pies[i].slices[j].name))
  }

  lemma {:induction false} FilledCardsAre(cards: seq<CardInput>, row: CardInput)
    requires row in FilledCards(cards)
    ensures row in cards && JsTrim(row.title) != ""
  {
    hide JsTrim;
    assert cards == [cards[0]] + cards[1..];
    if row in FilledCards(cards[1..]) { FilledCardsAre(cards[1..], row); }
  }

  lemma {:induction false} FilledPiesAre(pies: seq<PieInput>, pie: PieInput)
    requires pie in FilledPies(pies)
    ensures pie in pies && JsTrim(pie.metricName) != ""
  {
    hide JsTrim;
    assert pies == [pies[0]] + pies[1..];
    if pie in FilledPies(pies[1..]) { FilledPiesAre(pies[1..], pie); }
  }

  lemma {:induction false} FilledSlicesAre(slices: seq<SliceInput>, row: SliceInput)
    requires row in FilledSlices(slices)
    ensures row in slices && JsTrim(row.name) != ""
  {
    hide JsTrim;
    assert slices == [slices[0]] + slices[1..];
    if row in FilledSlices(slices[1..]) { FilledSlicesAre(slices[1..], row); }
  }

  lemma SharedCards(cards: seq<CardInput>)
    requires CardsOk(cards)
    requires forall i | 0 <= i < |cards| :: SharedWhitespace(cards[i].title) && SharedWhitespace(cards[i].description)
    ensures CardsVisible(cards)
  {
    hide JsTrim, Visible, SharedWhitespace, FilledCards, NonNegative, JsLength;
    forall i | 0 <= i < |FilledCards(cards)| ensures CardVisible(FilledCards(cards)[i]) {
      var row := FilledCards(cards)[i];
      FilledCardsAre(cards, row);
      assert CardRowOk(row);
      SharedStaysVisible(row.title);
      SharedStaysVisible(row.description);
    }
  }

  lemma SharedPies(pies: seq<PieInput>)
    requires forall i | 0 <= i < |pies| ::
               SharedWhitespace(pies[i].metricName)
               && forall j | 0 <= j < |pies[i].slices| :: SharedWhitespace(pies[i].slices[j].name)
    ensures PiesVisible(pies)
  {
    hide JsTrim, Visible, SharedWhitespace, FilledPies, FilledSlices;
    forall i | 0 <= i < |FilledPies(pies)| ensures PieVisible(FilledPies(pies)[i]) {
      var pie := FilledPies(pies)[i];
      FilledPiesAre(pies, pie);
      SharedStaysVisible(pie.metricName);
      forall j | 0 <= j < |FilledSlices(pie.slices)| ensures Visible(JsTrim(FilledSlices(pie.slices)[j].name)) {
        FilledSlicesAre(pie.slices, FilledSlices(pie.slices)[j]);
        SharedStaysVisible(FilledSlices(pie.slices)[j].name);
      }
    }
  }

  /** Texts without U+001C to U+001F and U+0085 are accepted whenever the sizes fit. */
  lemma SharedWhitespaceIsAccepted(values: Form, d: Dashboard, read: Reader)
    requires ReadsDoubles(read) && Detail(values, d, read).Some? && SharedDashboard(values, d)
    ensures
      var detail := Detail(values, d, read).value;
      var root := Root(values, d, read).value;
      && ValidDetail(root)
      && (Normalize(detail).Success? <==> |detail| <= MAX_DETAIL_CHARS && |NormalText(root)| <= MAX_DETAIL_CHARS)
  {
    hide Root, Normalize, ValidDetail, NormalText, Render, SharedWhitespace, Visible, JsTrim, CardVisible, PieVisible, CardsOk, PiesOk,
         HealthOf, FilledCards, FilledPies, ReadsDoubles, StatusOf, Metric, Document;
    ComposedIsAcceptedIff(values, d, read);
    RootParts(values, d, read);
    SharedCards(d.cards);
    SharedPies(d.pies);
    LabelsAreFilled(values, read);
    SharedStaysVisible(values["ha_aux1_label"]);
    SharedStaysVisible(values["ha_aux2_label"]);
  }

  lemma LabelsAreFilled(values: Form, read: Reader)
    requires HealthOf(values, read).Some?
    ensures "ha_aux1_label" in values && JsTrim(values["ha_aux1_label"]) != ""
    ensures "ha_aux2_label" in values && JsTrim(values["ha_aux2_label"]) != ""
  {
    hide Series, JsTrim, JsLength;
  }

  // ---- where the two runtimes differ -----------------------------------------------------------

  const NEXT_LINE := "\U{85}"

  lemma BlankToServerOnly(c: char)
    requires !IsJsSpace(c) && IsPySpace(c)
    ensures JsTrim([c]) == [c] && !Visible([c])
  {
    hide Trim, IsJsSpace, IsPySpace;
    TrimIsTrimmed([c], IsJsSpace);
    TrimEmptyIff([c], IsPySpace);
  }

  lemma NextLineIsInvisible()
    ensures JsTrim(NEXT_LINE) == NEXT_LINE && !Visible(NEXT_LINE)
  {
    hide JsTrim, Visible;
    assert NEXT_LINE == [NEXT_LINE[0]];
    BlankToServerOnly(NEXT_LINE[0]);
  }

  /** Retitle the first card of any form the browser accepts with U+0085: the browser still accepts it, the server
      refuses the detail. */
  lemma NextLineTitleIsRefused(values: Form, d: Dashboard, read: Reader)
    requires ReadsDoubles(read) && Detail(values, d, read).Some? && |d.cards| > 0 && JsTrim(d.cards[0].title) != ""
    ensures
      var retitled := d.(cards := d.cards[0 := d.cards[0].(title := NEXT_LINE)]);
      Detail(values, retitled, read).Some? && Normalize(Detail(values, retitled, read).value).Failure?
  {
    hide Normalize, ValidDetail, NormalText, Render, Visible, JsTrim, PieVisible, PiesOk, HealthOf, FilledPies, StatusOf, Metric, JsLength,
         CardItems, CardRowOk, ReadsDoubles, PieItems, HealthJson, MetricsJson, StatusJson;
    NextLineIsInvisible();
    var retitled := d.(cards := d.cards[0 := d.cards[0].(title := NEXT_LINE)]);
    assert retitled.cards[1..] == d.cards[1..];
    RetitledRow(d.cards[0], NEXT_LINE);
    assert FilledCards(retitled.cards) == [retitled.cards[0]] + FilledCards(d.cards[1..]);
    assert FilledCards(d.cards) == [d.cards[0]] + FilledCards(d.cards[1..]);
    var rows, rows' := FilledCards(d.cards), FilledCards(retitled.cards);
    forall i | 0 <= i < |rows'| ensures CardRowOk(rows'[i]) { if i > 0 { assert rows'[i] == rows[i]; } else { assert CardRowOk(rows[0]); } }
    ComposedIsAcceptedIff(values, retitled, read);
    assert !CardVisible(rows'[0]);
  }

  lemma RetitledRow(row: CardInput, title: string)
    ensures CardRowOk(row.(title := title)) == CardRowOk(row)
  {
    hide NonNegative, JsTrim, JsLength;
  }
}
