// JSON values, the compact printer both runtimes share, and an RFC 8259 parser
// with the behaviour of Python's `json.loads` (later duplicate keys win).
//
// A number is an integer, or a double for a text with a fraction or an exponent.
// Object members keep their insertion order.
module Json {
  import opened Wrappers
  import opened Text
  import opened Doubles
  import opened Numbers

  datatype Json =
    | Null
    | Bool(b: bool)
    | Int(n: int)
    | Float(x: Decimal)
    | Str(s: string)
    | Arr(items: seq<Json>)
    | Obj(members: seq<Member>)

  datatype Member = Member(key: string, value: Json)

  // ---- well-formed values -----------------------------------------------

  predicate DistinctKeys(ms: seq<Member>) {
    forall i, j | 0 <= i < j < |ms| :: ms[i].key != ms[j].key
  }

  /** Values a parser can return: floats are finite doubles, keys are distinct. */
  predicate WellFormed(v: Json) {
    match v
    case Float(x) => IsDouble(x)
    case Arr(items) => forall i | 0 <= i < |items| :: WellFormed(items[i])
    case Obj(ms) => DistinctKeys(ms) && forall i | 0 <= i < |ms| :: WellFormed(ms[i].value)
    case _ => true
  }

  type JsonValue = v: Json | WellFormed(v) witness Null

  function Find(ms: seq<Member>, key: string): (r: Option<Json>)
    ensures r.Some? <==> exists i :: 0 <= i < |ms| && ms[i].key == key
    ensures r.Some? ==> exists i :: 0 <= i < |ms| && ms[i] == Member(key, r.value)
  {
    if |ms| == 0 then None
    else if ms[0].key == key then assert ms[0] == Member(key, ms[0].value); Some(ms[0].value)
    else
      var r := Find(ms[1..], key);
      assert forall i | 0 < i < |ms| :: ms[i] == ms[1..][i - 1];
      r
  }

  /** `dict.get`: a JSON null member and a missing one are told apart by `Some(Null)`. */
  function Get(v: Json, key: string): Option<Json> {
    if v.Obj? then Find(v.members, key) else None
  }

  /** `dict[key] = value`: replace in place, or append. */
  function Put(ms: seq<Member>, key: string, value: Json): (r: seq<Member>)
    ensures (forall i | 0 <= i < |ms| :: ms[i].key != key) ==> r == ms + [Member(key, value)]
  {
    if |ms| == 0 then [Member(key, value)]
    else if ms[0].key == key then [Member(key, value)] + ms[1..]
    else [ms[0]] + Put(ms[1..], key, value)
  }

  /** An object literal: assignments in order, a later one replacing an earlier one. */
  function Dict(pairs: seq<Member>): seq<Member> {
    if |pairs| == 0 then []
    else
      var last := pairs[|pairs| - 1];
      Put(Dict(pairs[..|pairs| - 1]), last.key, last.value)
  }

  // ---- printers ---------------------------------------------------------

  /** Python's `json.dumps` with and without `ensure_ascii`, the browser's canonical printer, and `JSON.stringify`. */
  datatype Printer = PythonAscii | PythonUtf8 | Browser | Stringify

  predicate AllNumbers(v: Json, ok: Json -> bool) {
    match v
    case Int(_) => ok(v)
    case Float(_) => ok(v)
    case Arr(items) => forall i | 0 <= i < |items| :: AllNumbers(items[i], ok)
    case Obj(ms) => forall i | 0 <= i < |ms| :: AllNumbers(ms[i].value, ok)
    case _ => true
  }

  /** A browser has doubles only; its canonical printer writes those up to 2^53 - 1 without a fraction as integers. */
  predicate IsBrowserNumber(v: Json) {
    (v.Int? ==> -MAX_SAFE_INTEGER <= v.n <= MAX_SAFE_INTEGER) && (v.Float? ==> PrintsAsFloat(v.x))
  }

  /** `JSON.stringify` writes more doubles as integers: every one printed without exponent and fraction. */
  predicate IsStringifyNumber(v: Json) { v.Float? ==> !StringifiesAsDigits(v.x) }

  /** The numbers are integers and floats as the printer tells them apart; Python values say so themselves. */
  predicate Printable(v: Json, p: Printer) {
    match p
    case Browser => AllNumbers(v, IsBrowserNumber)
    case Stringify => AllNumbers(v, IsStringifyNumber)
    case _ => true
  }

  function FloatText(x: Decimal, p: Printer): string {
    match p
    case Browser => SerializeJsonNumber(x)
    case Stringify => StringifyNumber(x)
    case _ => PythonText(x)
  }

  function HexDigit(n: nat): char
    requires n < 16
  {
    if n < 10 then (n + 48) as char else (n + 87) as char
  }

  function Hex4(n: nat): (h: string)
    requires n < 0x10000
    ensures |h| == 4
  {
    [HexDigit(n / 4096), HexDigit(n / 256 % 16), HexDigit(n / 16 % 16), HexDigit(n % 16)]
  }

  /** One character of a string literal. */
  function QuoteChar(c: char, p: Printer): string {
    var n, ascii := c as int, p.PythonAscii?;
    if c == '"' then "\\\""
    else if c == '\\' then "\\\\"
    else if n == 8 then "\\b"
    else if n == 9 then "\\t"
    else if n == 10 then "\\n"
    else if n == 12 then "\\f"
    else if n == 13 then "\\r"
    else if n < 32 || (ascii && 126 < n < 0x10000) then "\\u" + Hex4(n)
    else if ascii && 0x10000 <= n then
      "\\u" + Hex4(0xD800 + (n - 0x10000) / 1024) + "\\u" + Hex4(0xDC00 + (n - 0x10000) % 1024)
    else [c]
  }

  function QuoteBody(s: string, p: Printer): string {
    if s == "" then "" else QuoteChar(s[0], p) + QuoteBody(s[1..], p)
  }

  function Quote(s: string, p: Printer): string {
    "\"" + QuoteBody(s, p) + "\""
  }

  /** Compact text with members in their stored order (`separators=(",", ":")`). */
  function Render(v: Json, p: Printer): string {
    match v
    case Null => "null"
    case Bool(b) => if b then "true" else "false"
    case Int(n) => IntText(n)
    case Float(x) => FloatText(x, p)
    case Str(s) => Quote(s, p)
    case Arr(items) => "[" + RenderItems(items, p) + "]"
    case Obj(ms) => "{" + RenderMembers(ms, p) + "}"
  }

  function RenderItems(items: seq<Json>, p: Printer): string {
    if |items| == 0 then ""
    else if |items| == 1 then Render(items[0], p)
    else Render(items[0], p) + "," + RenderItems(items[1..], p)
  }

  function RenderMember(m: Member, p: Printer): string {
    Quote(m.key, p) + ":" + Render(m.value, p)
  }

  function RenderMembers(ms: seq<Member>, p: Printer): string {
    if |ms| == 0 then ""
    else if |ms| == 1 then RenderMember(ms[0], p)
    else RenderMember(ms[0], p) + "," + RenderMembers(ms[1..], p)
  }

  // ---- parser -----------------------------------------------------------

  predicate IsWs(c: char) { c == ' ' || c == '\t' || c == '\n' || c == '\r' }

  function SkipWs(s: string): (r: string)
    ensures |r| <= |s|
    ensures r != "" ==> !IsWs(r[0])
  {
    DropLeft(s, IsWs)
  }

  function StartsWith(s: string, prefix: string): bool {
    |prefix| <= |s| && s[..|prefix|] == prefix
  }

  function HexValue(c: char): (r: Option<nat>)
    ensures r.Some? ==> r.value < 16
  {
    if IsDigit(c) then Some(c as int - 48)
    else if 'a' <= c <= 'f' then Some(c as int - 87)
    else if 'A' <= c <= 'F' then Some(c as int - 55)
    else None
  }

  function ParseHex4(s: string): (r: Option<nat>)
    requires |s| >= 4
    ensures r.Some? ==> r.value < 0x10000
  {
    var a :- HexValue(s[0]);
    var b :- HexValue(s[1]);
    var c :- HexValue(s[2]);
    var d :- HexValue(s[3]);
    Some(4096 * a + 256 * b + 16 * c + d)
  }

  /** Text after `\u`; a high surrogate must be followed by an escaped low one. */
  function ParseUnicodeEscape(s: string): (r: Option<(char, string)>)
    ensures r.Some? ==> |r.value.1| < |s|
  {
    if |s| < 4 then None
    else
      var n :- ParseHex4(s);
      if 0xD800 <= n < 0xDC00 then
        if |s| >= 10 && s[4] == '\\' && s[5] == 'u' then
          var low :- ParseHex4(s[6..]);
          if 0xDC00 <= low < 0xE000 then
            Some(((0x10000 + (n - 0xD800) * 1024 + (low - 0xDC00)) as char, s[10..]))
          else None
        else None
      else if 0xDC00 <= n < 0xE000 then None
      else Some((n as char, s[4..]))
  }

  function SimpleEscape(c: char): Option<char> {
    match c
    case '"' => Some('"')
    case '\\' => Some('\\')
    case '/' => Some('/')
    case 'b' => Some(8 as char)
    case 'f' => Some(12 as char)
    case 'n' => Some('\n')
    case 'r' => Some('\r')
    case 't' => Some('\t')
    case _ => None
  }

  /** Text after a backslash. */
  function ParseEscape(s: string): (r: Option<(char, string)>)
    ensures r.Some? ==> |r.value.1| < |s|
  {
    if s == "" then None
    else if s[0] == 'u' then ParseUnicodeEscape(s[1..])
    else
      var c :- SimpleEscape(s[0]);
      Some((c, s[1..]))
  }

  /** Text after the opening quote, up to and including the closing one. */
  function ParseChars(s: string): (r: Option<(string, string)>)
    ensures r.Some? ==> |r.value.1| < |s|
    decreases |s|
  {
    if s == "" || s[0] as int < 32 then None
    else if s[0] == '"' then Some(("", s[1..]))
    else
      var (c, rest) :- if s[0] == '\\' then ParseEscape(s[1..]) else Some((s[0], s[1..]));
      var (cs, after) :- ParseChars(rest);
      Some(([c] + cs, after))
  }

  function ParseNumber(s: string): (r: Option<(Json, string)>)
    ensures r.Some? ==> |r.value.1| < |s|
  {
    var i := FirstIndex(s, c => !IsNumberChar(c));
    if IsIntText(s[..i]) then Some((Int(IntValue(s[..i])), s[i..]))
    else
      var x :- ReadFloat(s[..i]);
      Some((Float(x), s[i..]))
  }

  function ParseWord(s: string): (r: Option<(Json, string)>)
    ensures r.Some? ==> |r.value.1| < |s|
  {
    if StartsWith(s, "null") then Some((Null, s[4..]))
    else if StartsWith(s, "true") then Some((Bool(true), s[4..]))
    else if StartsWith(s, "false") then Some((Bool(false), s[5..]))
    else None
  }

  function ParseString(s: string): (r: Option<(string, string)>)
    ensures r.Some? ==> |r.value.1| < |s|
  {
    if s == "" || s[0] != '"' then None else ParseChars(s[1..])
  }

  /** One JSON value after optional whitespace, and the text that follows it. */
  function ParseValue(s: string): (r: Option<(Json, string)>)
    ensures r.Some? ==> |r.value.1| < |s|
    decreases |s|, 1
  {
    var t := SkipWs(s);
    if t == "" then None
    else if t[0] == '"' then
      var (cs, rest) :- ParseString(t);
      Some((Str(cs), rest))
    else if t[0] == '[' then ParseArray(t)
    else if t[0] == '{' then ParseObject(t)
    else if t[0] == 'n' || t[0] == 't' || t[0] == 'f' then ParseWord(t)
    else ParseNumber(t)
  }

  function ParseArray(s: string): (r: Option<(Json, string)>)
    requires s != ""
    ensures r.Some? ==> |r.value.1| < |s|
    decreases |s|, 0
  {
    var u := SkipWs(s[1..]);
    if u != "" && u[0] == ']' then Some((Arr([]), u[1..]))
    else
      var (items, rest) :- ParseItems(s[1..]);
      Some((Arr(items), rest))
  }

  function ParseObject(s: string): (r: Option<(Json, string)>)
    requires s != ""
    ensures r.Some? ==> |r.value.1| < |s|
    decreases |s|, 0
  {
    var u := SkipWs(s[1..]);
    if u != "" && u[0] == '}' then Some((Obj([]), u[1..]))
    else
      var (ms, rest) :- ParseMembers(s[1..], []);
      Some((Obj(ms), rest))
  }

  function ParseItems(s: string): (r: Option<(seq<Json>, string)>)
    ensures r.Some? ==> |r.value.1| < |s|
    decreases |s|, 2
  {
    var (v, rest) :- ParseValue(s);
    var t := SkipWs(rest);
    if t == "" then None
    else if t[0] == ']' then Some(([v], t[1..]))
    else if t[0] == ',' then
      var (vs, after) :- ParseItems(t[1..]);
      Some(([v] + vs, after))
    else None
  }

  function ParseMember(s: string): (r: Option<(Member, string)>)
    ensures r.Some? ==> |r.value.1| < |s|
    decreases |s|, 2
  {
    var (key, rest) :- ParseString(SkipWs(s));
    var u := SkipWs(rest);
    if u == "" || u[0] != ':' then None
    else
      var (v, after) :- ParseValue(u[1..]);
      Some((Member(key, v), after))
  }

  function ParseMembers(s: string, acc: seq<Member>): (r: Option<(seq<Member>, string)>)
    ensures r.Some? ==> |r.value.1| < |s|
    decreases |s|, 3
  {
    var (m, rest) :- ParseMember(s);
    var t := SkipWs(rest);
    var ms := Put(acc, m.key, m.value);
    if t == "" then None
    else if t[0] == '}' then Some((ms, t[1..]))
    else if t[0] == ',' then ParseMembers(t[1..], ms)
    else None
  }

  /** `json.loads`: one value, then only whitespace. */
  function Parse(s: string): Option<Json> {
    var (v, rest) :- ParseValue(s);
    if SkipWs(rest) == "" then Some(v) else None
  }
}
