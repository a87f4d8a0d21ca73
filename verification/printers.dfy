// The browser's canonical printer, step by step, and exactly when the server prints the same text.
// A browser number is a double. The browser writes an integral one from 2^53 on with an exponent; the
// server reads that text as a float and writes it without exponent up to 10^16.
module Printers {
  import opened Wrappers
  import opened Doubles
  import opened Numbers
  import opened Json
  import opened JsonRoundTrip
  import opened Canonical

  /** Values the browser can hold. */
  predicate IsBrowserJson(v: Json) { WellFormed(v) && Printable(v, Browser) }

  /** What the browser's `canonicalJsonStr` returns. */
  function BrowserJsonStr(v: Json): string { Render(Canon(v), Browser) }

  // ---- the printer ----------------------------------------------------------

  method SerializeJsonString(s: string) returns (out: string)
    ensures out == Quote(s, Browser)
  {
    hide QuoteChar, QuoteBody;
    out := "\"";
    assert s[..0] == "" && "\"" + "" == "\"";
    EmptyQuoteBody();
    for i := 0 to |s|
      invariant out == "\"" + QuoteBody(s[..i], Browser)
    {
      QuoteBodyAppend(s[..i], s[i]);
      assert s[..i] + [s[i]] == s[..i + 1];
      var piece := EscapeChar(s[i]);
      out := out + piece;
    }
    assert s[..|s|] == s;
    out := out + "\"";
  }

  /** The `switch` over one code point. */
  method EscapeChar(c: char) returns (piece: string)
    ensures piece == QuoteChar(c, Browser)
  {
    match c as int
    case 0x22 => piece := "\\\"";
    case 0x5c => piece := "\\\\";
    case 0x08 => piece := "\\b";
    case 0x09 => piece := "\\t";
    case 0x0a => piece := "\\n";
    case 0x0c => piece := "\\f";
    case 0x0d => piece := "\\r";
    case cp =>
      if cp < 0x20 { piece := "\\u" + Hex4(cp); } else { piece := [c]; }
  }

  lemma EmptyQuoteBody()
    ensures QuoteBody("", Browser) == ""
  {
  }

  lemma {:induction false} QuoteBodyAppend(s: string, c: char)
    ensures QuoteBody(s + [c], Browser) == QuoteBody(s, Browser) + QuoteChar(c, Browser)
  {
    hide QuoteChar;
    if s == "" {
      assert s + [c] == [c];
    } else {
      QuoteBodyAppend(s[1..], c);
      assert (s + [c])[1..] == s[1..] + [c];
    }
  }

  /** Puts one member where the comparator wants it. */
  method InsertByKey(m: Member, ms: seq<Member>) returns (r: seq<Member>)
    ensures r == Insert(m, ms)
  {
    hide Compare;
    var i := 0;
    assert ms[0..] == ms && ms[..0] + Insert(m, ms) == Insert(m, ms);
    while i < |ms|
      invariant 0 <= i <= |ms|
      invariant Insert(m, ms) == ms[..i] + Insert(m, ms[i..])
    {
      var order := CompareUnicodeKeys(m.key, ms[i].key);
      if order < 0 { break; }
      assert ms[i..][1..] == ms[i + 1..] && ms[..i] + [ms[i]] == ms[..i + 1];
      i := i + 1;
    }
    return ms[..i] + [m] + ms[i..];
  }

  /** `Object.keys(v).sort(compareUnicodeKeys)` */
  method SortKeys(ms: seq<Member>) returns (r: seq<Member>)
    ensures r == SortMembers(ms)
  {
    r := [];
    var i := |ms|;
    while i > 0
      invariant 0 <= i <= |ms|
      invariant r == SortMembers(ms[i..])
    {
      i := i - 1;
      assert ms[i..][1..] == ms[i + 1..];
      r := InsertByKey(ms[i], r);
    }
  }

  /** `join(",")` */
  function Join(parts: seq<string>): string {
    if |parts| == 0 then "" else if |parts| == 1 then parts[0] else parts[0] + "," + Join(parts[1..])
  }

  lemma {:induction false} JoinItems(parts: seq<string>, items: seq<Json>)
    requires |parts| == |items| && forall i | 0 <= i < |parts| :: parts[i] == Render(items[i], Browser)
    ensures Join(parts) == RenderItems(items, Browser)
  {
    hide Render;
    if |parts| > 1 { JoinItems(parts[1..], items[1..]); }
  }

  lemma {:induction false} JoinMembers(parts: seq<string>, ms: seq<Member>)
    requires |parts| == |ms| && forall i | 0 <= i < |parts| :: parts[i] == RenderMember(ms[i], Browser)
    ensures Join(parts) == RenderMembers(ms, Browser)
  {
    hide RenderMember;
    if |parts| > 1 { JoinMembers(parts[1..], ms[1..]); }
  }

  /** `serializeJsonNumber` of the double that a value stands for. */
  function NumberText(v: Json): string
    requires v.Int? || v.Float?
  {
    if v.Int? then IntText(v.n) else SerializeJsonNumber(v.x)
  }

  /** The browser's recursive printer; keys are sorted while printing. */
  method SerializeJsonValue(v: Json) returns (text: string)
    requires IsBrowserJson(v)
    ensures text == BrowserJsonStr(v)
    decreases v
  {
    hide IsDouble, IsBrowserNumber, SerializeJsonNumber, IntText, QuoteBody, Insert, SortMembers, DistinctKeys;
    match v
    case Null => text := "null";
    case Bool(b) => text := if b then "true" else "false";
    case Int(_) => text := NumberText(v);
    case Float(_) => text := NumberText(v);
    case Str(s) => text := SerializeJsonString(s);
    case Arr(items) =>
      var parts := [];
      for i := 0 to |items|
        invariant |parts| == i && forall j | 0 <= j < i :: parts[j] == BrowserJsonStr(items[j])
      {
        var part := SerializeJsonValue(items[i]);
        parts := parts + [part];
      }
      JoinItems(parts, CanonItems(items));
      text := "[" + Join(parts) + "]";
    case Obj(ms) =>
      var keys := SortKeys(ms);
      var parts := [];
      for i := 0 to |keys|
        invariant |parts| == i
        invariant forall j | 0 <= j < i :: parts[j] == RenderMember(CanonMembers(keys)[j], Browser)
      {
        assert keys[i] in ms;
        var name := SerializeJsonString(keys[i].key);
        var part := SerializeJsonValue(keys[i].value);
        parts := parts + [name + ":" + part];
      }
      CanonMembersCommutesWithSort(ms);
      JoinMembers(parts, CanonMembers(keys));
      text := "{" + Join(parts) + "}";
  }

  lemma {:induction false} CanonMembersCommutesWithSort(ms: seq<Member>)
    ensures CanonMembers(SortMembers(ms)) == SortMembers(CanonMembers(ms))
  {
    if |ms| > 0 {
      CanonMembersCommutesWithSort(ms[1..]);
      assert CanonMembers(ms)[1..] == CanonMembers(ms[1..]);
      CanonMembersCommutesWithInsert(ms[0], SortMembers(ms[1..]));
    }
  }

  lemma {:induction false} CanonMembersCommutesWithInsert(m: Member, ms: seq<Member>)
    ensures CanonMembers(Insert(m, ms)) == Insert(Member(m.key, Canon(m.value)), CanonMembers(ms))
  {
    if |ms| > 0 && !Less(m.key, ms[0].key) {
      CanonMembersCommutesWithInsert(m, ms[1..]);
      assert CanonMembers(ms)[1..] == CanonMembers(ms[1..]);
      assert Insert(m, ms) == [ms[0]] + Insert(m, ms[1..]);
    }
  }

  // ---- agreement with the server ------------------------------------------------

  predicate IsPlainNumber(v: Json) { v.Float? ==> !PrintsTwoWays(v.x) }

  /** No integral number from 2^53 on and below 10^16: what a caller would check before signing. */
  predicate PlainNumbers(v: Json) { AllNumbers(v, IsPlainNumber) }

  lemma {:induction false} SameQuote(s: string)
    ensures QuoteBody(s, Browser) == QuoteBody(s, PythonUtf8)
  {
    if s != "" { SameQuote(s[1..]); }
  }

  lemma {:induction false} PlainPrintsSame(v: Json)
    requires IsBrowserJson(v) && PlainNumbers(v)
    ensures Render(v, Browser) == Render(v, PythonUtf8)
    decreases v, 1
  {
    hide PrintsTwoWays, PrintsAsFloat, PythonText, SerializeJsonNumber, QuoteBody, IsDouble, RenderItems, RenderMembers;
    match v
    case Float(x) => FloatTextsAgreeIff(x);
    case Str(s) => SameQuote(s);
    case Arr(items) => PlainItemsPrintSame(items);
    case Obj(ms) => PlainMembersPrintSame(ms);
    case _ =>
  }

  lemma {:induction false} PlainItemsPrintSame(items: seq<Json>)
    requires forall i | 0 <= i < |items| :: IsBrowserJson(items[i]) && PlainNumbers(items[i])
    ensures RenderItems(items, Browser) == RenderItems(items, PythonUtf8)
    decreases items, 0
  {
    hide Render, IsBrowserJson, PlainNumbers;
    if |items| > 0 {
      PlainPrintsSame(items[0]);
      PlainItemsPrintSame(items[1..]);
    }
  }

  lemma {:induction false} PlainMembersPrintSame(ms: seq<Member>)
    requires forall i | 0 <= i < |ms| :: IsBrowserJson(ms[i].value) && PlainNumbers(ms[i].value)
    ensures RenderMembers(ms, Browser) == RenderMembers(ms, PythonUtf8)
    decreases ms, 0
  {
    hide Render, QuoteBody, IsBrowserJson, PlainNumbers;
    if |ms| > 0 {
      SameQuote(ms[0].key);
      PlainPrintsSame(ms[0].value);
      PlainMembersPrintSame(ms[1..]);
    }
  }

  /** A value's text ends where the parser stops, so equal texts begin with equal values' texts. */
  lemma SameHead(v: Json, rest: string, rest': string)
    requires IsBrowserJson(v) && EndsNumber(rest) && EndsNumber(rest')
    requires Render(v, Browser) + rest == Render(v, PythonUtf8) + rest'
    ensures Render(v, Browser) == Render(v, PythonUtf8) && rest == rest'
  {
    hide Render, WellFormed, AllNumbers, ParseValue, EndsNumber;
    ParseValueOfRender(v, Browser, rest);
    ParseValueOfRender(v, PythonUtf8, rest');
    var s := Render(v, Browser) + rest;
    assert s[..|Render(v, Browser)|] == Render(v, Browser) && s[..|Render(v, PythonUtf8)|] == Render(v, PythonUtf8);
  }

  lemma {:induction false} SameTextMeansPlain(v: Json)
    requires IsBrowserJson(v) && Render(v, Browser) == Render(v, PythonUtf8)
    ensures PlainNumbers(v)
    decreases v, 1
  {
    hide PrintsTwoWays, PrintsAsFloat, PythonText, SerializeJsonNumber, QuoteBody, IsDouble, RenderItems, RenderMembers;
    match v
    case Float(x) => FloatTextsAgreeIff(x);
    case Arr(items) =>
      InnerText("[", RenderItems(items, Browser), RenderItems(items, PythonUtf8), "]");
      SameItemsMeanPlain(items);
    case Obj(ms) =>
      InnerText("{", RenderMembers(ms, Browser), RenderMembers(ms, PythonUtf8), "}");
      SameMembersMeanPlain(ms);
    case _ =>
  }

  lemma InnerText(open: string, a: string, b: string, close: string)
    requires open + a + close == open + b + close && |close| == 1
    ensures a == b
  {
    var s := open + a + close;
    assert s[|open|..|s| - 1] == a && s[|open|..|s| - 1] == b;
  }

  lemma {:induction false} SameItemsMeanPlain(items: seq<Json>)
    requires forall i | 0 <= i < |items| :: IsBrowserJson(items[i])
    requires RenderItems(items, Browser) == RenderItems(items, PythonUtf8)
    ensures forall i | 0 <= i < |items| :: PlainNumbers(items[i])
    decreases items, 0
  {
    hide Render, IsBrowserJson, PlainNumbers, EndsNumber;
    if |items| == 1 {
      SameTextMeansPlain(items[0]);
    } else if |items| > 1 {
      var b, p := RenderItems(items[1..], Browser), RenderItems(items[1..], PythonUtf8);
      EndsWithPunctuation(b);
      EndsWithPunctuation(p);
      assert RenderItems(items, Browser) == Render(items[0], Browser) + ("," + b);
      assert RenderItems(items, PythonUtf8) == Render(items[0], PythonUtf8) + ("," + p);
      SameHead(items[0], "," + b, "," + p);
      assert ("," + b)[1..] == b && ("," + p)[1..] == p;
      SameTextMeansPlain(items[0]);
      SameItemsMeanPlain(items[1..]);
      forall i | 0 <= i < |items| ensures PlainNumbers(items[i]) { if i > 0 { assert items[i] == items[1..][i - 1]; } }
    }
  }

  lemma SameKeyPrefix(key: string, a: string, b: string)
    requires Quote(key, Browser) + ":" + a == Quote(key, PythonUtf8) + ":" + b
    ensures a == b
  {
    SameQuote(key);
    hide QuoteBody;
    var q := Quote(key, Browser) + ":";
    assert (q + a)[|q|..] == a && (q + b)[|q|..] == b;
  }

  lemma {:induction false} SameMembersMeanPlain(ms: seq<Member>)
    requires forall i | 0 <= i < |ms| :: IsBrowserJson(ms[i].value)
    requires RenderMembers(ms, Browser) == RenderMembers(ms, PythonUtf8)
    ensures forall i | 0 <= i < |ms| :: PlainNumbers(ms[i].value)
    decreases ms, 0
  {
    hide Render, IsBrowserJson, PlainNumbers, EndsNumber, Quote;
    if |ms| == 1 {
      SameKeyPrefix(ms[0].key, Render(ms[0].value, Browser), Render(ms[0].value, PythonUtf8));
      SameTextMeansPlain(ms[0].value);
    } else if |ms| > 1 {
      var b, p := RenderMembers(ms[1..], Browser), RenderMembers(ms[1..], PythonUtf8);
      EndsWithPunctuation(b);
      EndsWithPunctuation(p);
      MemberThenMore(ms[0], Browser, b);
      MemberThenMore(ms[0], PythonUtf8, p);
      SameKeyPrefix(ms[0].key, Render(ms[0].value, Browser) + ("," + b), Render(ms[0].value, PythonUtf8) + ("," + p));
      SameHead(ms[0].value, "," + b, "," + p);
      assert ("," + b)[1..] == b && ("," + p)[1..] == p;
      SameTextMeansPlain(ms[0].value);
      SameMembersMeanPlain(ms[1..]);
      forall i | 0 <= i < |ms| ensures PlainNumbers(ms[i].value) { if i > 0 { assert ms[i] == ms[1..][i - 1]; } }
    }
  }

  lemma MemberThenMore(m: Member, p: Printer, more: string)
    ensures RenderMember(m, p) + "," + more == Quote(m.key, p) + ":" + (Render(m.value, p) + ("," + more))
  {
    hide Render, Quote;
  }

  lemma CanonIsBrowserJson(v: Json)
    requires IsBrowserJson(v)
    ensures IsBrowserJson(Canon(v))
  {
    hide Canon, WellFormed, AllNumbers;
    CanonWellFormed(v);
    CanonNumbers(v, IsBrowserNumber);
  }

  /** Both runtimes print the same text exactly for values without an integral number from 2^53 on and below 10^16. */
  lemma PrintersAgreeIff(v: Json)
    requires IsBrowserJson(v)
    ensures BrowserJsonStr(v) == CanonicalJsonStr(v) <==> PlainNumbers(v)
  {
    hide Canon, Render, AllNumbers, IsBrowserJson;
    CanonIsBrowserJson(v);
    CanonNumbers(v, IsPlainNumber);
    if PlainNumbers(v) { PlainPrintsSame(Canon(v)); }
    if BrowserJsonStr(v) == CanonicalJsonStr(v) { SameTextMeansPlain(Canon(v)); }
  }

  /** Whichever numbers it holds, the browser's text reads as the value with sorted keys, so what the server prints
      for the value it read is its canonical text. */
  lemma ParseOfBrowserJson(v: Json)
    requires IsBrowserJson(v)
    ensures Parse(BrowserJsonStr(v)) == Some(Canon(v))
  {
    hide Canon, Render, WellFormed, AllNumbers;
    CanonIsBrowserJson(v);
    ParseOfRender(Canon(v), Browser);
  }

  /** 2^53 as the browser holds it. */
  function TwoTo53(): (x: Decimal)
    ensures IsDouble(x) && !x.neg && Nearest(x.m, x.p) == Some(Binary(TWO_52, 1))
  {
    hide Pow;
    PowStep(2, 1);
    PowZero();
    PowZeroOf(10);
    var b := Binary(TWO_52, 1);
    NearestOfValue(TWO_53, 0, b);
    var (m, p) := Shortest(b);
    Decimal(false, m, p)
  }

  lemma OneNumber(x: Decimal)
    requires IsDouble(x) && PrintsAsFloat(x)
    ensures
      var v := Obj([Member("n", Float(x))]);
      IsBrowserJson(v) && (PlainNumbers(v) <==> !PrintsTwoWays(x))
  {
    hide IsDouble, PrintsAsFloat, PrintsTwoWays;
    var v := Obj([Member("n", Float(x))]);
    assert WellFormed(v.members[0].value);
    assert AllNumbers(v.members[0].value, IsBrowserNumber);
    assert AllNumbers(v.members[0].value, IsPlainNumber) <==> !PrintsTwoWays(x);
    if PlainNumbers(v) { assert AllNumbers(v.members[0].value, IsPlainNumber); }
  }

  /** `{"n": 9007199254740992}` is signed as one text and checked as another. */
  lemma TwoTo53Differs()
    ensures
      var v := Obj([Member("n", Float(TwoTo53()))]);
      IsBrowserJson(v) && BrowserJsonStr(v) != CanonicalJsonStr(v)
  {
    hide TwoTo53, Nearest, Shortest;
    var x := TwoTo53();
    PowStep(2, 1);
    PowZero();
    assert WholeMagnitude(x) == Some(TWO_53);
    ZeroIsDouble(false);
    if x.m == 0 { ZeroHasOneForm(x); }
    hide WholeMagnitude;
    OneNumber(x);
    PrintersAgreeIff(Obj([Member("n", Float(x))]));
  }
}
