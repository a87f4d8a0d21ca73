// The parser inverts the printer, and returns only well-formed values.
module JsonRoundTrip {
  import opened Wrappers
  import opened Text
  import opened Doubles
  import opened Numbers
  import opened Json

  // ---- strings ----------------------------------------------------------

  lemma HexDigitValue(n: nat)
    requires n < 16
    ensures HexValue(HexDigit(n)) == Some(n)
  {
  }

  lemma ParseHex4OfHex4(n: nat, rest: string)
    requires n < 0x10000
    ensures ParseHex4(Hex4(n) + rest) == Some(n)
  {
    hide HexDigit, HexValue;
    HexDigitValue(n / 4096);
    HexDigitValue(n / 256 % 16);
    HexDigitValue(n / 16 % 16);
    HexDigitValue(n % 16);
    assert n / 256 % 16 == n / 256 - n / 4096 * 16;
    assert n / 16 % 16 == n / 16 - n / 256 * 16;
  }

  lemma ParseUnicodeEscapeOfHex4(n: nat, rest: string)
    requires n < 0xD800 || 0xE000 <= n < 0x10000
    ensures ParseUnicodeEscape(Hex4(n) + rest) == Some((n as char, rest))
  {
    ParseHex4OfHex4(n, rest);
    assert (Hex4(n) + rest)[4..] == rest;
  }

  lemma ParseUnicodeEscapeOfPair(c: char, rest: string)
    requires 0x10000 <= c as int
    ensures
      var n := c as int - 0x10000;
      var text := Hex4(0xD800 + n / 1024) + "\\u" + Hex4(0xDC00 + n % 1024) + rest;
      ParseUnicodeEscape(text) == Some((c, rest))
  {
    hide Hex4, ParseHex4;
    var n := c as int - 0x10000;
    var high, low := 0xD800 + n / 1024, 0xDC00 + n % 1024;
    var text := Hex4(high) + "\\u" + Hex4(low) + rest;
    assert text == Hex4(high) + ("\\u" + Hex4(low) + rest);
    ParseHex4OfHex4(high, "\\u" + Hex4(low) + rest);
    assert text[6..] == Hex4(low) + rest;
    ParseHex4OfHex4(low, rest);
    assert text[10..] == rest;
  }

  /** The escape after a backslash, for every character the printer escapes. */
  lemma ParseEscapeOfQuoteChar(c: char, p: Printer, rest: string)
    requires QuoteChar(c, p) != [c]
    ensures
      var q := QuoteChar(c, p);
      q != "" && q[0] == '\\' && ParseEscape(q[1..] + rest) == Some((c, rest))
  {
    hide Hex4, ParseUnicodeEscape;
    var q := QuoteChar(c, p);
    var n := c as int;
    var t := q[1..] + rest;
    if |q| == 2 {
      assert t[0] == q[1] && t[1..] == rest;
    } else if n < 0x10000 {
      assert t[0] == 'u' && t[1..] == Hex4(n) + rest;
      ParseUnicodeEscapeOfHex4(n, rest);
    } else {
      var m := n - 0x10000;
      assert t[0] == 'u' && t[1..] == Hex4(0xD800 + m / 1024) + "\\u" + Hex4(0xDC00 + m % 1024) + rest;
      ParseUnicodeEscapeOfPair(c, rest);
    }
  }

  lemma PlainChar(c: char, p: Printer)
    requires QuoteChar(c, p) == [c]
    ensures c != '"' && c != '\\' && c as int >= 32
  {
    hide Hex4;
  }

  lemma ParsePlainStep(c: char, rest: string)
    requires c != '"' && c != '\\' && c as int >= 32
    ensures ParseChars([c] + rest) == match ParseChars(rest) case None => None case Some(p) => Some(([c] + p.0, p.1))
  {
    hide ParseEscape;
    assert ([c] + rest)[1..] == rest;
  }

  lemma ParseEscapedStep(q: string, c: char, rest: string)
    requires q != "" && q[0] == '\\' && ParseEscape(q[1..] + rest) == Some((c, rest))
    ensures ParseChars(q + rest) == match ParseChars(rest) case None => None case Some(p) => Some(([c] + p.0, p.1))
  {
    hide ParseEscape;
    assert (q + rest)[1..] == q[1..] + rest;
  }

  lemma ParseCharsOfQuoteChar(c: char, p: Printer, rest: string)
    ensures
      ParseChars(QuoteChar(c, p) + rest) ==
      match ParseChars(rest)
      case None => None
      case Some(p) => Some(([c] + p.0, p.1))
  {
    hide *;
    var q := QuoteChar(c, p);
    if q == [c] {
      PlainChar(c, p);
      ParsePlainStep(c, rest);
    } else {
      ParseEscapeOfQuoteChar(c, p, rest);
      ParseEscapedStep(q, c, rest);
    }
  }

  /** String literals are self-delimiting: whatever follows the closing quote is left over. */
  lemma {:induction false} ParseCharsOfQuoteBody(s: string, p: Printer, rest: string)
    ensures ParseChars(QuoteBody(s, p) + "\"" + rest) == Some((s, rest))
  {
    hide QuoteChar;
    var tail := "\"" + rest;
    assert QuoteBody(s, p) + "\"" + rest == QuoteBody(s, p) + tail;
    if s == "" {
      assert QuoteBody(s, p) + tail == tail;
      assert tail[1..] == rest;
    } else {
      ParseCharsOfQuoteBody(s[1..], p, rest);
      var body := QuoteBody(s[1..], p) + "\"" + rest;
      assert QuoteBody(s, p) + tail == QuoteChar(s[0], p) + body;
      ParseCharsOfQuoteChar(s[0], p, body);
      assert [s[0]] + s[1..] == s;
    }
  }

  // ---- numbers ----------------------------------------------------------

  /** What may follow a number text without being read as part of it. */
  predicate EndsNumber(rest: string) {
    rest != "" ==> !IsNumberChar(rest[0])
  }

  lemma FirstIndexUnique(s: string, p: char -> bool, i: nat)
    requires i <= |s|
    requires forall j | 0 <= j < i :: !p(s[j])
    requires i < |s| ==> p(s[i])
    ensures FirstIndex(s, p) == i
  {
  }

  lemma IntTextIsNumber(n: int)
    ensures IsIntText(IntText(n)) && IntValue(IntText(n)) == n
    ensures IntText(n)[0] == '-' || IsDigit(IntText(n)[0])
    ensures forall i | 0 <= i < |IntText(n)| :: IsNumberChar(IntText(n)[i])
  {
    var m: nat := if n < 0 then -n else n;
    NumeralOfDigits(m);
    if n < 0 {
      assert ("-" + Digits(m))[1..] == Digits(m);
    }
  }

  lemma ParseNumberOfText(text: string, rest: string)
    requires forall i | 0 <= i < |text| :: IsNumberChar(text[i])
    requires EndsNumber(rest)
    ensures
      ParseNumber(text + rest) ==
      if IsIntText(text) then Some((Int(IntValue(text)), rest))
      else match ReadFloat(text)
        case None => None
        case Some(x) => Some((Float(x), rest))
  {
    var s := text + rest;
    var p := c => !IsNumberChar(c);
    FirstIndexUnique(s, p, |text|);
    assert s[..|text|] == text && s[|text|..] == rest;
  }

  /** A printed double reads back as itself. */
  lemma FloatTextReads(x: Decimal, p: Printer)
    requires IsDouble(x) && Printable(Float(x), p)
    ensures
      var t := FloatText(x, p);
      ReadFloat(t) == Some(x) && !IsIntText(t) && t != "" && (t[0] == '-' || IsDigit(t[0])) && AllNumberChars(t)
  {
    hide IsDouble, PythonText, SerializeJsonNumber, StringifyNumber, IsIntText, AllNumberChars, ReadParts, PrintsAsFloat, StringifiesAsDigits,
         ToDouble;
    match p {
      case Browser => SerializeJsonNumberReads(x);
      case Stringify => StringifyNumberReads(x);
      case _ => PythonTextReads(x);
    }
    FloatTextIsNotInt(FloatText(x, p));
  }

  // ---- values -----------------------------------------------------------

  /** First character of a printed value: never whitespace nor a closing bracket. */
  lemma RenderHead(v: Json, p: Printer)
    requires WellFormed(v) && Printable(v, p)
    ensures Render(v, p) != ""
    ensures
      var c := Render(v, p)[0];
      !IsWs(c) && c != ']' && c != '}' && c != ','
  {
    hide IsDouble, FloatText, IntText, ReadFloat, IsIntText, QuoteBody, RenderItems, RenderMembers, Printable;
    match v
    case Float(x) => FloatTextReads(x, p);
    case Int(n) => IntTextIsNumber(n);
    case _ =>
  }

  lemma SkipWsNoOp(s: string)
    requires s != "" ==> !IsWs(s[0])
    ensures SkipWs(s) == s
  {
  }

  lemma ParseValueOfNumber(text: string, rest: string)
    requires text != "" && (text[0] == '-' || IsDigit(text[0]))
    ensures ParseValue(text + rest) == ParseNumber(text + rest)
  {
    hide ParseNumber, ParseArray, ParseObject, ParseString, ParseWord, SkipWs;
    var s := text + rest;
    assert s[0] == text[0];
    SkipWsNoOp(s);
  }

  lemma ParseWordOfRender(v: Json, p: Printer, rest: string)
    requires v.Null? || v.Bool?
    ensures ParseWord(Render(v, p) + rest) == Some((v, rest))
  {
    var w := Render(v, p);
    var s := w + rest;
    assert s[..|w|] == w && s[|w|..] == rest && s[0] == w[0];
  }

  lemma ParseNumberOfRender(v: Json, p: Printer, rest: string)
    requires (v.Int? || v.Float?) && WellFormed(v) && Printable(v, p) && EndsNumber(rest)
    ensures ParseValue(Render(v, p) + rest) == Some((v, rest))
  {
    hide ParseValue, ParseNumber, EndsNumber, IsDouble, FloatText, IntText, ReadFloat, IsIntText, IntValue, IsNumberChar;
    if v.Int? { IntTextIsNumber(v.n); } else { FloatTextReads(v.x, p); }
    ParseValueOfNumber(Render(v, p), rest);
    ParseNumberOfText(Render(v, p), rest);
  }

  lemma {:induction false} ParseValueOfRender(v: Json, p: Printer, rest: string)
    requires WellFormed(v) && Printable(v, p)
    requires EndsNumber(rest)
    ensures ParseValue(Render(v, p) + rest) == Some((v, rest))
    decreases v, 3
  {
    hide *;
    match v {
      case Int(_) => ParseNumberOfRender(v, p, rest);
      case Float(_) => ParseNumberOfRender(v, p, rest);
      case Str(cs) => ParseStringOfQuote(cs, p, rest);
      case Arr(items) => ParseArrayOfRender(items, p, rest);
      case Obj(ms) => ParseObjectOfRender(ms, p, rest);
      case _ => ParseWordOfRender(v, p, rest);
    }
    if !v.Int? && !v.Float? { ParseValueStep(v, p, rest); }
  }

  /** How a printed value that is no number is read: by its first character. */
  lemma ParseValueStep(v: Json, p: Printer, rest: string)
    requires !v.Int? && !v.Float?
    ensures v.Str? && ParseString(Quote(v.s, p) + rest) == Some((v.s, rest)) ==> ParseValue(Render(v, p) + rest) == Some((v, rest))
    ensures v.Arr? ==> ParseValue(Render(v, p) + rest) == ParseArray("[" + RenderItems(v.items, p) + "]" + rest)
    ensures v.Obj? ==> ParseValue(Render(v, p) + rest) == ParseObject("{" + RenderMembers(v.members, p) + "}" + rest)
    ensures v.Null? || v.Bool? ==> ParseValue(Render(v, p) + rest) == ParseWord(Render(v, p) + rest)
  {
    hide ParseNumber, ParseArray, ParseObject, ParseString, ParseWord, SkipWs, QuoteBody, RenderItems, RenderMembers;
    var s := Render(v, p) + rest;
    assert s[0] == Render(v, p)[0];
    SkipWsNoOp(s);
  }

  lemma ParseStringOfQuote(cs: string, p: Printer, rest: string)
    ensures ParseString(Quote(cs, p) + rest) == Some((cs, rest))
  {
    hide QuoteBody, ParseChars;
    assert (Quote(cs, p) + rest)[1..] == QuoteBody(cs, p) + "\"" + rest;
    ParseCharsOfQuoteBody(cs, p, rest);
  }

  lemma ParseArrayStep(t: string)
    requires t != "" && !IsWs(t[0])
    ensures
      ParseArray("[" + t) ==
      if t[0] == ']' then Some((Arr([]), t[1..]))
      else match ParseItems(t) case None => None case Some(r) => Some((Arr(r.0), r.1))
  {
    hide ParseItems, SkipWs, IsWs;
    SkipWsNoOp(t);
    assert ("[" + t)[1..] == t;
  }

  lemma ParseObjectStep(t: string)
    requires t != "" && !IsWs(t[0])
    ensures
      ParseObject("{" + t) ==
      if t[0] == '}' then Some((Obj([]), t[1..]))
      else match ParseMembers(t, []) case None => None case Some(r) => Some((Obj(r.0), r.1))
  {
    hide ParseMembers, SkipWs, IsWs;
    SkipWsNoOp(t);
    assert ("{" + t)[1..] == t;
  }

  /** What follows an opening bracket. */
  lemma ItemsHead(items: seq<Json>, p: Printer, rest: string)
    requires WellFormed(Arr(items)) && Printable(Arr(items), p)
    ensures
      var t := RenderItems(items, p) + "]" + rest;
      t != "" && !IsWs(t[0]) && (t[0] == ']' <==> items == []) && (items == [] ==> t[1..] == rest)
  {
    hide Render, WellFormed, Printable, IsWs;
    if |items| == 0 {
      assert "" + "]" + rest == "]" + rest;
      assert !IsWs(']') by { CloserIsNoSpace(); }
    } else {
      ItemsWellFormed(items);
      ItemsPrintable(items, p);
      RenderHead(items[0], p);
      assert (RenderItems(items, p) + "]" + rest)[0] == Render(items[0], p)[0];
    }
  }

  lemma EndsWithPunctuation(rest: string)
    ensures EndsNumber("}" + rest) && EndsNumber("]" + rest) && EndsNumber("," + rest)
    ensures !IsWs('}') && !IsWs(']') && !IsWs(',')
  {
  }

  lemma CloserIsNoSpace()
    ensures !IsWs(']') && !IsWs('}') && !IsWs('"')
  {
  }

  lemma MembersHead(ms: seq<Member>, p: Printer, rest: string)
    ensures
      var t := RenderMembers(ms, p) + "}" + rest;
      t != "" && !IsWs(t[0]) && (t[0] == '}' <==> ms == []) && (ms == [] ==> t[1..] == rest)
  {
    hide Render, QuoteBody, IsWs;
    CloserIsNoSpace();
    if |ms| == 0 {
      assert "" + "}" + rest == "}" + rest;
    } else {
      assert (RenderMembers(ms, p) + "}" + rest)[0] == RenderMember(ms[0], p)[0] == '"';
    }
  }

  lemma {:induction false} ParseArrayOfRender(items: seq<Json>, p: Printer, rest: string)
    requires WellFormed(Arr(items)) && Printable(Arr(items), p)
    ensures ParseArray("[" + RenderItems(items, p) + "]" + rest) == Some((Arr(items), rest))
    decreases items, 2
  {
    hide *;
    var t := RenderItems(items, p) + "]" + rest;
    assert "[" + RenderItems(items, p) + "]" + rest == "[" + t;
    ItemsHead(items, p, rest);
    ParseArrayStep(t);
    if |items| > 0 { ParseItemsOfRender(items, p, rest); }
  }

  lemma ItemsWellFormed(items: seq<Json>)
    requires |items| > 0
    ensures WellFormed(Arr(items)) <==> WellFormed(items[0]) && WellFormed(Arr(items[1..]))
  {
    assert items == [items[0]] + items[1..];
  }

  lemma ItemsPrintable(items: seq<Json>, p: Printer)
    requires |items| > 0 && Printable(Arr(items), p)
    ensures Printable(items[0], p) && Printable(Arr(items[1..]), p)
  {
  }

  lemma MembersPrintable(ms: seq<Member>, p: Printer)
    requires |ms| > 0 && Printable(Obj(ms), p)
    ensures Printable(ms[0].value, p) && Printable(Obj(ms[1..]), p)
  {
  }

  lemma {:induction false} ParseItemsOfRender(items: seq<Json>, p: Printer, rest: string)
    requires |items| > 0 && WellFormed(Arr(items)) && Printable(Arr(items), p)
    ensures ParseItems(RenderItems(items, p) + "]" + rest) == Some((items, rest))
    decreases items, 1
  {
    hide Render, ParseValue, SkipWs, WellFormed, Printable;
    ItemsWellFormed(items);
    ItemsPrintable(items, p);
    var first := Render(items[0], p);
    var t := RenderItems(items, p) + "]" + rest;
    if |items| == 1 {
      var after := "]" + rest;
      assert t == first + after;
      ParseValueOfRender(items[0], p, after);
      SkipWsNoOp(after);
      assert after[1..] == rest && [items[0]] == items;
    } else {
      var tail := RenderItems(items[1..], p) + "]" + rest;
      var after := "," + tail;
      assert t == first + after;
      ParseValueOfRender(items[0], p, after);
      SkipWsNoOp(after);
      assert after[1..] == tail;
      ParseItemsOfRender(items[1..], p, rest);
      assert [items[0]] + items[1..] == items;
    }
  }

  lemma {:induction false} ParseObjectOfRender(ms: seq<Member>, p: Printer, rest: string)
    requires WellFormed(Obj(ms)) && Printable(Obj(ms), p)
    ensures ParseObject("{" + RenderMembers(ms, p) + "}" + rest) == Some((Obj(ms), rest))
    decreases ms, 2
  {
    hide *;
    var t := RenderMembers(ms, p) + "}" + rest;
    assert "{" + RenderMembers(ms, p) + "}" + rest == "{" + t;
    MembersHead(ms, p, rest);
    ParseObjectStep(t);
    assert [] + ms == ms;
    if |ms| > 0 { ParseMembersOfRender(ms, p, rest, []); }
  }

  lemma {:induction false} ParseMemberOfRender(m: Member, p: Printer, rest: string)
    requires WellFormed(m.value) && Printable(m.value, p) && EndsNumber(rest)
    ensures ParseMember(RenderMember(m, p) + rest) == Some((m, rest))
    decreases m, 4
  {
    hide Render, ParseString, ParseValue, QuoteBody, Printable, WellFormed;
    var s := RenderMember(m, p) + rest;
    var value := Render(m.value, p) + rest;
    SkipWsNoOp(s);
    assert s == Quote(m.key, p) + (":" + value);
    ParseStringOfQuote(m.key, p, ":" + value);
    SkipWsNoOp(":" + value);
    assert (":" + value)[1..] == value;
    ParseValueOfRender(m.value, p, rest);
  }

  lemma PutNewKey(acc: seq<Member>, ms: seq<Member>)
    requires |ms| > 0 && WellFormed(Obj(acc + ms))
    ensures Put(acc, ms[0].key, ms[0].value) == acc + [ms[0]] && WellFormed(ms[0].value)
  {
    var all := acc + ms;
    assert all[|acc|] == ms[0];
    forall i | 0 <= i < |acc| ensures acc[i].key != ms[0].key {
      assert all[i] == acc[i];
    }
  }

  lemma ParseMembersLast(t: string, m: Member, rest: string, acc: seq<Member>)
    requires ParseMember(t) == Some((m, "}" + rest))
    ensures ParseMembers(t, acc) == Some((Put(acc, m.key, m.value), rest))
  {
    EndsWithPunctuation(rest);
    SkipWsNoOp("}" + rest);
    hide ParseMember, Put, SkipWs, EndsNumber;
    assert ("}" + rest)[1..] == rest;
  }

  lemma ParseMembersMore(t: string, m: Member, tail: string, acc: seq<Member>)
    requires ParseMember(t) == Some((m, "," + tail))
    ensures ParseMembers(t, acc) == ParseMembers(tail, Put(acc, m.key, m.value))
  {
    EndsWithPunctuation(tail);
    SkipWsNoOp("," + tail);
    hide ParseMember, Put, SkipWs, EndsNumber;
    assert ("," + tail)[1..] == tail;
  }

  lemma RenderMembersLast(ms: seq<Member>, p: Printer, rest: string)
    requires |ms| == 1
    ensures RenderMembers(ms, p) + "}" + rest == RenderMember(ms[0], p) + ("}" + rest)
  {
    hide RenderMember;
  }

  lemma RenderMembersMore(ms: seq<Member>, p: Printer, rest: string)
    requires |ms| > 1
    ensures RenderMembers(ms, p) + "}" + rest == RenderMember(ms[0], p) + ("," + (RenderMembers(ms[1..], p) + "}" + rest))
  {
    hide RenderMember;
  }

  lemma {:induction false} ParseMembersOfRender(ms: seq<Member>, p: Printer, rest: string, acc: seq<Member>)
    requires |ms| > 0 && WellFormed(Obj(acc + ms)) && Printable(Obj(ms), p)
    ensures ParseMembers(RenderMembers(ms, p) + "}" + rest, acc) == Some((acc + ms, rest))
    decreases ms, 1
  {
    hide *;
    MembersPrintable(ms, p);
    PutNewKey(acc, ms);
    var m := ms[0];
    var t := RenderMembers(ms, p) + "}" + rest;
    if |ms| == 1 {
      RenderMembersLast(ms, p, rest);
      EndsWithPunctuation(rest);
      ParseMemberOfRender(m, p, "}" + rest);
      ParseMembersLast(t, m, rest, acc);
      assert acc + [m] == acc + ms;
    } else {
      var tail := RenderMembers(ms[1..], p) + "}" + rest;
      RenderMembersMore(ms, p, rest);
      EndsWithPunctuation(tail);
      ParseMemberOfRender(m, p, "," + tail);
      ParseMembersMore(t, m, tail, acc);
      assert acc + [m] + ms[1..] == acc + ms;
      ParseMembersOfRender(ms[1..], p, rest, acc + [m]);
    }
  }

  /** `parse(print(v)) == v`, whichever printer wrote the text. */
  lemma ParseOfRender(v: Json, p: Printer)
    requires WellFormed(v) && Printable(v, p)
    ensures Parse(Render(v, p)) == Some(v)
  {
    hide Render, ParseValue, WellFormed, Printable;
    ParseValueOfRender(v, p, "");
    assert Render(v, p) + "" == Render(v, p);
  }

  /** A printed object begins with a brace and has no space to strip. */
  lemma RenderedObjectIsTrimmed(v: Json, p: Printer)
    requires v.Obj?
    ensures var t := Render(v, p); t != "" && t[0] == '{' && Strip(t) == t
  {
    hide RenderMembers, Trim;
    var t := Render(v, p);
    assert t[0] == '{' && t[|t| - 1] == '}';
    TrimIsTrimmed(t, IsPySpace);
  }

  // ---- members ------------------------------------------------------------

  lemma FindCons(m: Member, ms: seq<Member>, k: string)
    ensures Find([m] + ms, k) == if m.key == k then Some(m.value) else Find(ms, k)
  {
    assert ([m] + ms)[1..] == ms;
  }

  lemma {:induction false} FindPut(ms: seq<Member>, key: string, value: Json, k: string)
    ensures Find(Put(ms, key, value), k) == if k == key then Some(value) else Find(ms, k)
  {
    hide Find;
    if |ms| == 0 {
      FindCons(Member(key, value), [], k);
      assert [Member(key, value)] + [] == [Member(key, value)];
      FindEmpty(k);
    } else {
      assert ms == [ms[0]] + ms[1..];
      FindCons(ms[0], ms[1..], k);
      FindPut(ms[1..], key, value, k);
      FindCons(Member(key, value), ms[1..], k);
      FindCons(ms[0], Put(ms[1..], key, value), k);
    }
  }

  lemma FindEmpty(k: string)
    ensures Find([], k) == None
  {
  }

  lemma {:induction false} DictWellFormed(pairs: seq<Member>)
    requires forall i | 0 <= i < |pairs| :: WellFormed(pairs[i].value)
    ensures WellFormed(Obj(Dict(pairs)))
  {
    if |pairs| > 0 {
      DictWellFormed(pairs[..|pairs| - 1]);
      var last := pairs[|pairs| - 1];
      PutKeepsWellFormed(Dict(pairs[..|pairs| - 1]), last.key, last.value);
    }
  }

  /** The last assignment to a key is what an object literal holds. */
  lemma {:induction false} FindDict(pairs: seq<Member>, i: nat)
    requires i < |pairs|
    requires forall j | i < j < |pairs| :: pairs[j].key != pairs[i].key
    ensures Find(Dict(pairs), pairs[i].key) == Some(pairs[i].value)
  {
    hide Find, Put;
    var front := pairs[..|pairs| - 1];
    var last := pairs[|pairs| - 1];
    FindPut(Dict(front), last.key, last.value, pairs[i].key);
    if i < |pairs| - 1 { FindDict(front, i); }
  }

  lemma {:induction false} FindDictNone(pairs: seq<Member>, k: string)
    requires forall j | 0 <= j < |pairs| :: pairs[j].key != k
    ensures Find(Dict(pairs), k) == None
  {
    hide Find, Put;
    if |pairs| == 0 {
      FindEmpty(k);
    } else {
      var last := pairs[|pairs| - 1];
      FindDictNone(pairs[..|pairs| - 1], k);
      FindPut(Dict(pairs[..|pairs| - 1]), last.key, last.value, k);
    }
  }

  // ---- the parser returns well-formed values ------------------------------

  lemma PutKeepsDistinct(ms: seq<Member>, key: string, value: Json)
    requires DistinctKeys(ms)
    ensures DistinctKeys(Put(ms, key, value))
    ensures forall m | m in Put(ms, key, value) :: m in ms || m == Member(key, value)
    ensures |ms| <= |Put(ms, key, value)|
  {
    if |ms| > 0 && ms[0].key != key {
      var tail := ms[1..];
      assert DistinctKeys(tail) by {
        forall i, j | 0 <= i < j < |tail| ensures tail[i].key != tail[j].key {
          assert tail[i] == ms[i + 1] && tail[j] == ms[j + 1];
        }
      }
      PutKeepsDistinct(tail, key, value);
      var r := Put(ms, key, value);
      forall i, j | 0 <= i < j < |r| ensures r[i].key != r[j].key {
        if i == 0 {
          assert r[j] in Put(tail, key, value);
          if r[j] in tail {
            var k :| 0 <= k < |tail| && tail[k] == r[j];
            assert ms[k + 1] == r[j];
          }
        } else {
          assert r[i] == Put(tail, key, value)[i - 1] && r[j] == Put(tail, key, value)[j - 1];
        }
      }
    }
  }

  lemma PutKeepsWellFormed(ms: seq<Member>, key: string, value: Json)
    requires WellFormed(Obj(ms)) && WellFormed(value)
    ensures WellFormed(Obj(Put(ms, key, value)))
  {
    PutKeepsDistinct(ms, key, value);
    var r := Put(ms, key, value);
    forall i | 0 <= i < |r| ensures WellFormed(r[i].value) {
      assert r[i] in r;
      if r[i] in ms { var k :| 0 <= k < |ms| && ms[k] == r[i]; }
    }
  }

  lemma {:induction false} ParseValueWellFormed(s: string)
    ensures ParseValue(s).Some? ==> WellFormed(ParseValue(s).value.0)
    decreases |s|, 1
  {
    var t := SkipWs(s);
    hide ParseArray, ParseObject, ParseString, SkipWs, IsFloatText, IsIntText;
    if t != "" && t[0] == '[' {
      ParseArrayWellFormed(t);
    } else if t != "" && t[0] == '{' {
      ParseObjectWellFormed(t);
    }
  }

  lemma {:induction false} ParseArrayWellFormed(s: string)
    requires s != ""
    ensures ParseArray(s).Some? ==> WellFormed(ParseArray(s).value.0)
    decreases |s|, 0
  {
    hide ParseItems;
    ParseItemsWellFormed(s[1..]);
  }

  lemma {:induction false} ParseObjectWellFormed(s: string)
    requires s != ""
    ensures ParseObject(s).Some? ==> WellFormed(ParseObject(s).value.0)
    decreases |s|, 0
  {
    hide ParseMembers;
    ParseMembersWellFormed(s[1..], []);
  }

  lemma EmptyWellFormed()
    ensures WellFormed(Arr([]))
  {
  }

  lemma ConsWellFormed(v: Json, vs: seq<Json>)
    requires WellFormed(v) && WellFormed(Arr(vs))
    ensures WellFormed(Arr([v] + vs))
  {
  }

  lemma {:induction false} ParseItemsWellFormed(s: string)
    ensures ParseItems(s).Some? ==> WellFormed(Arr(ParseItems(s).value.0))
    decreases |s|, 2
  {
    hide ParseValue, SkipWs, WellFormed;
    ParseValueWellFormed(s);
    EmptyWellFormed();
    if ParseValue(s).Some? {
      var (v, rest) := ParseValue(s).value;
      var t := SkipWs(rest);
      ConsWellFormed(v, []);
      assert [v] + [] == [v];
      if t != "" && t[0] == ',' {
        ParseItemsWellFormed(t[1..]);
        if ParseItems(t[1..]).Some? { ConsWellFormed(v, ParseItems(t[1..]).value.0); }
      }
    }
  }

  lemma {:induction false} ParseMemberWellFormed(s: string)
    ensures ParseMember(s).Some? ==> WellFormed(ParseMember(s).value.0.value)
    decreases |s|, 2
  {
    hide ParseString, ParseValue, SkipWs, WellFormed;
    if ParseString(SkipWs(s)).Some? {
      var u := SkipWs(ParseString(SkipWs(s)).value.1);
      if u != "" { ParseValueWellFormed(u[1..]); }
    }
  }

  lemma {:induction false} ParseMembersWellFormed(s: string, acc: seq<Member>)
    requires WellFormed(Obj(acc))
    ensures ParseMembers(s, acc).Some? ==> WellFormed(Obj(ParseMembers(s, acc).value.0))
    decreases |s|, 3
  {
    hide ParseMember, Put;
    ParseMemberWellFormed(s);
    if ParseMember(s).Some? {
      var (m, rest) := ParseMember(s).value;
      PutKeepsWellFormed(acc, m.key, m.value);
      var t := SkipWs(rest);
      if t != "" && t[0] == ',' { ParseMembersWellFormed(t[1..], Put(acc, m.key, m.value)); }
    }
  }

  lemma ParseWellFormed(s: string)
    ensures Parse(s).Some? ==> WellFormed(Parse(s).value)
  {
    ParseValueWellFormed(s);
  }
}
