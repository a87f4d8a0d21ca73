// The genesis challenge body, the decoder that reads its fields back, and the
// paste normalisation applied before a challenge is signed.
module ChallengeText {
  import opened Wrappers
  import opened Text
  import opened Json

  datatype Challenge = Challenge(instanceId: string, nonce: string, issuedAt: nat, expiresAt: nat, subjectKey: string)

  predicate IsHexAnyCase(c: char) { IsDigit(c) || 'a' <= c <= 'f' || 'A' <= c <= 'F' }

  /** UUID shape, versions 1 to 5, either letter case. */
  predicate IsInstanceId(s: string) {
    |s| == 36
    && (forall i | 0 <= i < 36 :: IsUuidChar(i, s[i]))
    && '1' <= s[14] <= '5'
    && (s[19] == '8' || s[19] == '9' || s[19] == 'a' || s[19] == 'b' || s[19] == 'A' || s[19] == 'B')
  }

  predicate IsUuidChar(i: int, c: char) {
    if i == 8 || i == 13 || i == 18 || i == 23 then c == '-' else IsHexAnyCase(c)
  }

  type Uuid = s: string | IsInstanceId(s) witness "00000000-0000-1000-8000-000000000000"

  predicate IsLowerHexText(s: string) { forall i | 0 <= i < |s| :: IsDigit(s[i]) || 'a' <= s[i] <= 'f' }

  /** 64 hex digits; the builder's pattern also lets one line end through after them. */
  predicate IsNonceText(s: string) {
    |s| >= 64 && IsLowerHexText(s[..64]) && (s[64..] == "" || s[64..] == "\n")
  }

  /** The field checks `build_genesis_challenge_v1_body` makes. */
  predicate Buildable(c: Challenge) {
    IsInstanceId(c.instanceId)
    && IsNonceText(c.nonce)
    && |c.subjectKey| == 64 && IsLowerHexText(c.subjectKey)
    && c.issuedAt < c.expiresAt
  }

  /** The challenges the service issues: its random source returns hex digits alone. */
  predicate Issuable(c: Challenge) { Buildable(c) && |c.nonce| == 64 }

  function Labels(): seq<string> {
    ["", "instance_id: ", "nonce: ", "issued_at_unix: ", "expires_at_unix: ", "subject_signing_pubkey_hex: ", "purpose: "]
  }

  function FieldTexts(c: Challenge): seq<string> {
    ["modulr-genesis-challenge-v1", c.instanceId, c.nonce, Digits(c.issuedAt), Digits(c.expiresAt), c.subjectKey,
     "prove_bootstrap_operator"]
  }

  /** Label and field of each line, in order. */
  function Lines(labels: seq<string>, fields: seq<string>): (lines: seq<string>)
    requires |labels| == |fields|
    ensures |lines| == |fields| && forall i | 0 <= i < |lines| :: lines[i] == labels[i] + fields[i]
  {
    seq(|fields|, i requires 0 <= i < |fields| => labels[i] + fields[i])
  }

  function JoinLines(lines: seq<string>): string {
    if |lines| == 0 then "" else if |lines| == 1 then lines[0] else lines[0] + "\n" + JoinLines(lines[1..])
  }

  function SplitLines(s: string): seq<string> { Split(s, '\n') }

  function Body(c: Challenge): string { JoinLines(Lines(Labels(), FieldTexts(c))) }

  // ---- the decoder ------------------------------------------------------------

  function StripLabel(tag: string, line: string): Option<string> {
    if StartsWith(line, tag) then Some(line[|tag|..]) else None
  }

  function ReadNumber(s: string): Option<nat> {
    if s != "" && AllDigits(s) && (|s| == 1 || s[0] != '0') then Some(Numeral(s)) else None
  }

  /** Reads the fields of a challenge body, or rejects a text of any other shape. */
  function Decode(body: string): Option<Challenge> {
    var lines := SplitLines(body);
    if |lines| == 8 && lines[3] == "" then
      var c :- DecodeLines(lines[..3] + lines[4..]);
      Some(c.(nonce := c.nonce + "\n"))
    else DecodeLines(lines)
  }

  function DecodeLines(lines: seq<string>): Option<Challenge> {
    var labels := Labels();
    if |lines| != 7 || lines[0] != "modulr-genesis-challenge-v1" || lines[6] != "purpose: prove_bootstrap_operator" then None
    else
      var instanceId :- StripLabel(labels[1], lines[1]);
      var nonce :- StripLabel(labels[2], lines[2]);
      var issuedText :- StripLabel(labels[3], lines[3]);
      var issuedAt :- ReadNumber(issuedText);
      var expiresText :- StripLabel(labels[4], lines[4]);
      var expiresAt :- ReadNumber(expiresText);
      var subjectKey :- StripLabel(labels[5], lines[5]);
      Some(Challenge(instanceId, nonce, issuedAt, expiresAt, subjectKey))
  }

  predicate OneLine(s: string) { forall i | 0 <= i < |s| :: s[i] != '\n' }

  lemma {:induction false} SplitOfJoin(lines: seq<string>)
    requires |lines| >= 1 && forall i | 0 <= i < |lines| :: OneLine(lines[i])
    ensures SplitLines(JoinLines(lines)) == lines
  {
    var s := JoinLines(lines);
    if |lines| == 1 {
      assert IndexOf(s, '\n') == |s|;
    } else {
      var i := |lines[0]|;
      assert s[i] == '\n' && s[..i] == lines[0] && s[i + 1..] == JoinLines(lines[1..]);
      var k := IndexOf(s, '\n');
      assert k == i by {
        assert forall j | 0 <= j < i :: s[j] == lines[0][j];
      }
      SplitOfJoin(lines[1..]);
    }
  }

  lemma LabelLine(tag: string, field: string)
    ensures StripLabel(tag, tag + field) == Some(field)
  {
    assert (tag + field)[..|tag|] == tag && (tag + field)[|tag|..] == field;
  }

  lemma ReadNumberOfDigits(n: nat)
    ensures ReadNumber(Digits(n)) == Some(n)
  {
    NumeralOfDigits(n);
  }

  lemma FieldTextsOneLine(c: Challenge)
    requires Issuable(c)
    ensures OneLine(c.instanceId) && OneLine(c.nonce) && OneLine(c.subjectKey)
    ensures OneLine(Digits(c.issuedAt)) && OneLine(Digits(c.expiresAt))
  {
  }

  lemma LabelsAreOneLine(i: nat)
    requires i < 7
    ensures OneLine(Labels()[i])
  {
    hide Digits;
  }

  lemma FieldIsOneLine(c: Challenge, i: nat)
    requires Issuable(c) && i < 7
    ensures OneLine(FieldTexts(c)[i])
  {
    FieldTextsOneLine(c);
    hide Issuable, Digits, AllDigits;
    assert OneLine("modulr-genesis-challenge-v1") && OneLine("prove_bootstrap_operator");
  }

  lemma FieldsAreOneLine(c: Challenge)
    requires Issuable(c)
    ensures forall i | 0 <= i < 7 :: OneLine(Lines(Labels(), FieldTexts(c))[i])
  {
    hide Issuable, Labels, FieldTexts, OneLine;
    FixedLines(c);
    forall i | 0 <= i < 7 ensures OneLine(Lines(Labels(), FieldTexts(c))[i]) {
      LabelsAreOneLine(i);
      FieldIsOneLine(c, i);
      OneLineConcat(Labels()[i], FieldTexts(c)[i]);
    }
  }

  lemma OneLineConcat(a: string, b: string)
    requires OneLine(a) && OneLine(b)
    ensures OneLine(a + b)
  {
  }

  lemma LinesDecode(c: Challenge)
    ensures DecodeLines(Lines(Labels(), FieldTexts(c))) == Some(c)
  {
    hide Digits, StripLabel, Lines, Labels, FieldTexts, ReadNumber;
    FixedLines(c);
    LabelLine(Labels()[1], c.instanceId);
    LabelLine(Labels()[2], c.nonce);
    LabelLine(Labels()[3], Digits(c.issuedAt));
    ReadNumberOfDigits(c.issuedAt);
    LabelLine(Labels()[4], Digits(c.expiresAt));
    ReadNumberOfDigits(c.expiresAt);
    LabelLine(Labels()[5], c.subjectKey);
  }

  lemma DecodeOfIssued(c: Challenge)
    requires Issuable(c)
    ensures Decode(Body(c)) == Some(c)
  {
    hide Issuable, JoinLines, SplitLines, Lines, Labels, FieldTexts, DecodeLines;
    FixedLines(c);
    FieldsAreOneLine(c);
    SplitOfJoin(Lines(Labels(), FieldTexts(c)));
    LinesDecode(c);
  }

  /** A line end inside a line is an empty line after it. */
  lemma {:induction false} JoinWithInnerEnd(lines: seq<string>, k: nat, x: string)
    requires k < |lines| - 1 && lines[k] == x + "\n"
    ensures JoinLines(lines) == JoinLines(lines[..k] + [x, ""] + lines[k + 1..])
  {
    var split := lines[..k] + [x, ""] + lines[k + 1..];
    if k == 0 {
      assert split[1..] == [""] + lines[1..] && split[1..][1..] == lines[1..];
      assert x + "\n" + ("" + "\n" + JoinLines(lines[1..])) == x + "\n" + "\n" + JoinLines(lines[1..]);
    } else {
      assert split[1..] == lines[1..][..k - 1] + [x, ""] + lines[1..][k..];
      JoinWithInnerEnd(lines[1..], k - 1, x);
    }
  }

  /** The body determines its fields: no two challenges share a signed text. */
  lemma DecodeOfBody(c: Challenge)
    requires Buildable(c)
    ensures Decode(Body(c)) == Some(c)
  {
    hide IsInstanceId, IsLowerHexText;
    if |c.nonce| == 64 {
      DecodeOfIssued(c);
    } else {
      var d := c.(nonce := c.nonce[..64]);
      assert c.nonce == d.nonce + "\n" && d.nonce[..64] == d.nonce && d.nonce[64..] == "";
      DecodeOfLongNonce(c, d);
    }
  }

  lemma DecodeOfLongNonce(c: Challenge, d: Challenge)
    requires Issuable(d) && c == d.(nonce := d.nonce + "\n")
    ensures Decode(Body(c)) == Some(c)
  {
    hide Issuable, JoinLines, SplitLines, Lines, Labels, FieldTexts, DecodeLines;
    FixedLines(c);
    FixedLines(d);
    var lines, short := Lines(Labels(), FieldTexts(c)), Lines(Labels(), FieldTexts(d));
    assert lines[2] == short[2] + "\n" by { assert Labels()[2] + (d.nonce + "\n") == Labels()[2] + d.nonce + "\n"; }
    JoinWithInnerEnd(lines, 2, short[2]);
    var split := lines[..2] + [short[2], ""] + lines[3..];
    assert split == short[..3] + [""] + short[3..];
    FieldsAreOneLine(d);
    EmptyIsOneLine();
    SplitOfJoin(split);
    assert split[..3] + split[4..] == short;
    LinesDecode(d);
  }

  lemma EmptyIsOneLine()
    ensures OneLine("")
  {
  }

  lemma FixedLines(c: Challenge)
    ensures
      var lines := Lines(Labels(), FieldTexts(c));
      && |lines| == 7 && |Labels()| == 7
      && lines[0] == "modulr-genesis-challenge-v1" && lines[6] == "purpose: prove_bootstrap_operator"
      && lines[1] == Labels()[1] + c.instanceId && lines[2] == Labels()[2] + c.nonce
      && lines[3] == Labels()[3] + Digits(c.issuedAt) && lines[4] == Labels()[4] + Digits(c.expiresAt)
      && lines[5] == Labels()[5] + c.subjectKey
  {
    hide Digits;
    assert "" + "modulr-genesis-challenge-v1" == "modulr-genesis-challenge-v1";
    assert "purpose: " + "prove_bootstrap_operator" == "purpose: prove_bootstrap_operator";
  }

  // ---- paste normalisation ------------------------------------------------------

  predicate IsTrailingJunk(c: char) { c == '\r' || c == '\n' || c == '\t' || c == ' ' }

  function ReplaceCrLf(s: string): string {
    if s == "" then ""
    else if |s| > 1 && s[0] == '\r' && s[1] == '\n' then "\n" + ReplaceCrLf(s[2..])
    else [s[0]] + ReplaceCrLf(s[1..])
  }

  function ReplaceCr(s: string): string {
    if s == "" then "" else [if s[0] == '\r' then '\n' else s[0]] + ReplaceCr(s[1..])
  }

  /** Both replacements in one pass. */
  function UnixLines(s: string): string {
    if s == "" then ""
    else if s[0] == '\r' then "\n" + UnixLines(if |s| > 1 && s[1] == '\n' then s[2..] else s[1..])
    else [s[0]] + UnixLines(s[1..])
  }

  /** `normalize_pasted_challenge_for_signing` */
  function NormalizePasted(text: string): string { DropRight(ReplaceCr(ReplaceCrLf(text)), IsTrailingJunk) }

  lemma {:induction false} TwoReplacesAreOnePass(s: string)
    ensures ReplaceCr(ReplaceCrLf(s)) == UnixLines(s)
    decreases |s|
  {
    if s != "" {
      var crlf := |s| > 1 && s[0] == '\r' && s[1] == '\n';
      var rest := if crlf then s[2..] else s[1..];
      TwoReplacesAreOnePass(rest);
      assert ReplaceCrLf(s)[1..] == ReplaceCrLf(rest);
    }
  }

  datatype LineEnd = LF | CRLF | CR {
    function Text(): string {
      match this
      case LF => "\n"
      case CRLF => "\r\n"
      case CR => "\r"
    }
  }

  /** A copy of a text in which each line end was rewritten in its own style. */
  function Copied(s: string, ends: nat -> LineEnd, n: nat): string {
    if s == "" then ""
    else if s[0] == '\n' then ends(n).Text() + Copied(s[1..], ends, n + 1)
    else [s[0]] + Copied(s[1..], ends, n)
  }

  /** No carriage return, and no empty line (every line end follows and precedes a character). */
  predicate PlainLines(s: string) {
    (forall i | 0 <= i < |s| :: s[i] != '\r') && (forall i | 0 <= i < |s| - 1 :: !(s[i] == '\n' && s[i + 1] == '\n'))
  }

  lemma {:induction false} UnixOfPlain(s: string)
    requires forall i | 0 <= i < |s| :: s[i] != '\r'
    ensures UnixLines(s) == s
  {
    if s != "" { UnixOfPlain(s[1..]); }
  }

  lemma {:induction false} UnixHasNoCr(s: string)
    ensures forall i | 0 <= i < |UnixLines(s)| :: UnixLines(s)[i] != '\r'
    decreases |s|
  {
    if s != "" { UnixHasNoCr(if s[0] == '\r' && |s| > 1 && s[1] == '\n' then s[2..] else s[1..]); }
  }

  /** Trailing junk becomes trailing junk. */
  lemma {:induction false} UnixOfJunk(junk: string)
    requires forall i | 0 <= i < |junk| :: IsTrailingJunk(junk[i])
    ensures forall i | 0 <= i < |UnixLines(junk)| :: IsTrailingJunk(UnixLines(junk)[i])
    decreases |junk|
  {
    if junk != "" { UnixOfJunk(if junk[0] == '\r' && |junk| > 1 && junk[1] == '\n' then junk[2..] else junk[1..]); }
  }

  lemma {:induction false} UnixOfCopy(s: string, ends: nat -> LineEnd, n: nat, junk: string)
    requires PlainLines(s) && (s != "" ==> s[|s| - 1] != '\n')
    ensures UnixLines(Copied(s, ends, n) + junk) == s + UnixLines(junk)
    decreases |s|
  {
    var t := Copied(s, ends, n) + junk;
    if s == "" {
      assert t == junk && s + UnixLines(junk) == UnixLines(junk);
    } else {
      var n' := if s[0] == '\n' then n + 1 else n;
      var rest := Copied(s[1..], ends, n') + junk;
      UnixOfCopy(s[1..], ends, n', junk);
      assert s + UnixLines(junk) == [s[0]] + (s[1..] + UnixLines(junk));
      if s[0] == '\n' {
        assert t == ends(n).Text() + rest;
        assert rest[0] == s[1];
        hide Copied, UnixLines, PlainLines;
        UnixOfLineEnd(ends(n), rest);
      } else {
        assert t[0] == s[0] && t[1..] == rest;
      }
    }
  }

  lemma UnixOfLineEnd(e: LineEnd, rest: string)
    requires rest != "" && rest[0] != '\n'
    ensures UnixLines(e.Text() + rest) == "\n" + UnixLines(rest)
  {
    var t := e.Text() + rest;
    match e
    case LF => assert t[1..] == rest;
    case CRLF => assert t[2..] == rest;
    case CR => assert t[1..] == rest;
  }

  lemma {:induction false} DropJunk(s: string, junk: string)
    requires s == "" || !IsTrailingJunk(s[|s| - 1])
    requires forall i | 0 <= i < |junk| :: IsTrailingJunk(junk[i])
    ensures DropRight(s + junk, IsTrailingJunk) == s
    decreases |junk|
  {
    if junk == "" {
      assert s + junk == s;
    } else {
      assert (s + junk)[..|s + junk| - 1] == s + junk[..|junk| - 1];
      DropJunk(s, junk[..|junk| - 1]);
    }
  }

  /** Any copy of a text without empty lines, whatever its line ends and trailing whitespace, normalises to the text. */
  lemma PasteRecoversText(s: string, ends: nat -> LineEnd, junk: string)
    requires PlainLines(s) && (s == "" || !IsTrailingJunk(s[|s| - 1]))
    requires forall i | 0 <= i < |junk| :: IsTrailingJunk(junk[i])
    ensures NormalizePasted(Copied(s, ends, 0) + junk) == s
  {
    TwoReplacesAreOnePass(Copied(s, ends, 0) + junk);
    UnixOfCopy(s, ends, 0, junk);
    UnixOfJunk(junk);
    DropJunk(s, UnixLines(junk));
  }

  // ---- which texts a paste cannot recover -------------------------------------------

  predicate IsJunk(junk: string) { forall i | 0 <= i < |junk| :: IsTrailingJunk(junk[i]) }

  /** This copy of the text normalises to the text. */
  predicate RecoveredBy(s: string, ends: nat -> LineEnd, junk: string) { NormalizePasted(Copied(s, ends, 0) + junk) == s }

  /** Every copy does. */
  ghost predicate Recovered(s: string) {
    forall ends: nat -> LineEnd, junk: string | IsJunk(junk) :: RecoveredBy(s, ends, junk)
  }

  /** Line end `k` in the given style, every other one a line feed. */
  function OneEnd(k: nat, e: LineEnd): nat -> LineEnd { n => if n == k then e else LF }

  lemma {:induction false} CopyWithLineFeeds(s: string, ends: nat -> LineEnd, n: nat)
    requires forall m | n <= m :: ends(m) == LF
    ensures Copied(s, ends, n) == s
  {
    if s != "" { CopyWithLineFeeds(s[1..], ends, if s[0] == '\n' then n + 1 else n); }
  }

  /** A copy that changes the line end at position `i` only. */
  lemma {:induction false} CopyWithOneEnd(s: string, i: nat, e: LineEnd, n: nat) returns (k: nat)
    requires i < |s| && s[i] == '\n'
    ensures k >= n && Copied(s, OneEnd(k, e), n) == s[..i] + e.Text() + s[i + 1..]
    decreases |s|
  {
    hide Copied;
    CopyStep(s, i, e, n);
    if i == 0 {
      k := n;
      CopyWithLineFeeds(s[1..], OneEnd(k, e), n + 1);
      assert s[..0] + e.Text() + s[1..] == e.Text() + s[1..];
    } else {
      k := CopyWithOneEnd(s[1..], i - 1, e, if s[0] == '\n' then n + 1 else n);
      SpliceStep(s, i, e.Text());
    }
  }

  lemma CopyStep(s: string, i: nat, e: LineEnd, n: nat)
    requires i < |s|
    ensures forall k: nat ::
      Copied(s, OneEnd(k, e), n) ==
      if s[0] != '\n' then [s[0]] + Copied(s[1..], OneEnd(k, e), n)
      else (if k == n then e.Text() else "\n") + Copied(s[1..], OneEnd(k, e), n + 1)
  {
  }

  lemma SpliceStep(s: string, i: nat, mid: string)
    requires 0 < i < |s|
    ensures s[..i] + mid + s[i + 1..] == [s[0]] + (s[1..][..i - 1] + mid + s[1..][i..])
  {
  }

  lemma {:induction false} UnixShortens(s: string)
    ensures |UnixLines(s)| <= |s|
    ensures (exists i :: 0 <= i < |s| - 1 && s[i] == '\r' && s[i + 1] == '\n') ==> |UnixLines(s)| < |s|
    decreases |s|
  {
    if s != "" {
      var rest := if s[0] == '\r' && |s| > 1 && s[1] == '\n' then s[2..] else s[1..];
      UnixShortens(rest);
      if i :| 0 < i < |s| - 1 && s[i] == '\r' && s[i + 1] == '\n' && |rest| == |s| - 1 {
        assert rest[i - 1] == '\r' && rest[i] == '\n';
      }
    }
  }

  /** A text that is recovered from its own copy has no carriage return and no trailing junk. */
  lemma RecoveredFromItself(s: string)
    requires NormalizePasted(s) == s
    ensures (forall i | 0 <= i < |s| :: s[i] != '\r') && (s == "" || !IsTrailingJunk(s[|s| - 1]))
  {
    TwoReplacesAreOnePass(s);
    UnixHasNoCr(s);
    assert s == UnixLines(s)[..|s|];
  }

  /** Copying the first line end of an empty line as CR and all others as LF loses it. */
  lemma EmptyLineIsLost(s: string, i: nat)
    requires i < |s| - 1 && s[i] == '\n' && s[i + 1] == '\n'
    ensures !Recovered(s)
  {
    var k := CopyWithOneEnd(s, i, CR, 0);
    var t := Copied(s, OneEnd(k, CR), 0);
    assert t[i] == '\r' && t[i + 1] == '\n' && |t| == |s|;
    UnixShortens(t);
    TwoReplacesAreOnePass(t);
    assert t + "" == t;
    assert !RecoveredBy(s, OneEnd(k, CR), "");
  }

  /** Exactly the texts without carriage return, empty line and trailing junk are recovered from all their copies. */
  lemma RecoveredIff(s: string)
    ensures Recovered(s) <==> PlainLines(s) && (s == "" || !IsTrailingJunk(s[|s| - 1]))
  {
    if Recovered(s) {
      var ends := (n: nat) => LF;
      CopyWithLineFeeds(s, ends, 0);
      assert RecoveredBy(s, ends, "");
      assert s + "" == s;
      RecoveredFromItself(s);
      if i :| 0 <= i < |s| - 1 && s[i] == '\n' && s[i + 1] == '\n' { EmptyLineIsLost(s, i); }
    }
    if PlainLines(s) && (s == "" || !IsTrailingJunk(s[|s| - 1])) {
      forall ends: nat -> LineEnd, junk: string | IsJunk(junk) ensures RecoveredBy(s, ends, junk) { PasteRecoversText(s, ends, junk); }
    }
  }

  /** Every text with an empty line shares a copy with the text that lacks one of its two line ends. */
  lemma EmptyLineIsAmbiguous(s: string, i: nat) returns (ends: nat -> LineEnd, ends': nat -> LineEnd)
    requires i < |s| - 1 && s[i] == '\n' && s[i + 1] == '\n'
    ensures Copied(s, ends, 0) == Copied(s[..i] + s[i + 1..], ends', 0)
  {
    var shorter := s[..i] + s[i + 1..];
    var k := CopyWithOneEnd(s, i, CR, 0);
    var k' := CopyWithOneEnd(shorter, i, CRLF, 0);
    ends, ends' := OneEnd(k, CR), OneEnd(k', CRLF);
    assert shorter[..i] == s[..i] && shorter[i + 1..] == s[i + 2..];
    assert s[i + 1..] == "\n" + s[i + 2..];
    assert s[..i] + "\r" + ("\n" + s[i + 2..]) == s[..i] + "\r\n" + s[i + 2..];
  }

  lemma NormalizeIdempotent(text: string)
    ensures NormalizePasted(NormalizePasted(text)) == NormalizePasted(text)
  {
    TwoReplacesAreOnePass(text);
    TwoReplacesAreOnePass(NormalizePasted(text));
    UnixHasNoCr(text);
    UnixOfPlain(NormalizePasted(text));
    DropJunk(NormalizePasted(text), "");
    assert NormalizePasted(text) + "" == NormalizePasted(text);
  }

  /** Every challenge body survives pasting: the text that is signed is the text that was stored. */
  lemma PastedChallengeIsStoredBody(c: Challenge, ends: nat -> LineEnd, junk: string)
    requires Issuable(c)
    requires forall i | 0 <= i < |junk| :: IsTrailingJunk(junk[i])
    ensures NormalizePasted(Copied(Body(c), ends, 0) + junk) == Body(c)
  {
    BodyIsPlain(c);
    PasteRecoversText(Body(c), ends, junk);
  }

  lemma BodyIsPlain(c: Challenge)
    requires Issuable(c)
    ensures PlainLines(Body(c)) && Body(c) != "" && !IsTrailingJunk(Body(c)[|Body(c)| - 1])
  {
    hide Labels, FieldTexts, Issuable, Digits, Lines;
    FieldsAreOneLine(c);
    LinesAreFilled(c);
    FixedLines(c);
    JoinIsPlain(Lines(Labels(), FieldTexts(c)));
  }

  lemma LinesAreFilled(c: Challenge)
    requires Issuable(c)
    ensures forall i | 0 <= i < 7 :: Lines(Labels(), FieldTexts(c))[i] != "" && NoCr(Lines(Labels(), FieldTexts(c))[i])
  {
    hide Issuable, Digits, AllDigits;
    FieldsHaveNoCr(c);
    var labels, texts := Labels(), FieldTexts(c);
    hide NoCr;
    forall i | 0 <= i < 7 ensures NoCr(labels[i]) && NoCr(texts[i]) && texts[i] + labels[i] != "" {
      LabelsHaveNoCr();
    }
    hide Labels, FieldTexts;
    forall i | 0 <= i < 7 ensures Lines(labels, texts)[i] != "" && NoCr(Lines(labels, texts)[i]) { NoCrConcat(labels[i], texts[i]); }
  }

  lemma LabelsHaveNoCr()
    ensures forall i | 0 <= i < 7 :: NoCr(Labels()[i])
    ensures NoCr("modulr-genesis-challenge-v1") && NoCr("prove_bootstrap_operator")
  {
  }

  lemma NoCrConcat(a: string, b: string)
    requires NoCr(a) && NoCr(b)
    ensures NoCr(a + b)
  {
  }

  lemma FieldsHaveNoCr(c: Challenge)
    requires Issuable(c)
    ensures NoCr(c.instanceId) && NoCr(c.nonce) && NoCr(c.subjectKey)
    ensures NoCr(Digits(c.issuedAt)) && NoCr(Digits(c.expiresAt))
  {
    assert forall i | 0 <= i < 36 :: IsUuidChar(i, c.instanceId[i]);
  }

  predicate NoCr(s: string) { forall i | 0 <= i < |s| :: s[i] != '\r' }

  lemma {:induction false} JoinIsPlain(lines: seq<string>)
    requires |lines| >= 1 && forall i | 0 <= i < |lines| :: lines[i] != "" && NoCr(lines[i]) && OneLine(lines[i])
    ensures
      var s := JoinLines(lines);
      var last := lines[|lines| - 1];
      PlainLines(s) && s != "" && s[0] == lines[0][0] && s[|s| - 1] == last[|last| - 1]
  {
    if |lines| > 1 {
      JoinIsPlain(lines[1..]);
      var rest := JoinLines(lines[1..]);
      var s := JoinLines(lines);
      var k := |lines[0]|;
      assert s == lines[0] + "\n" + rest;
      assert rest[0] != '\n';
      forall i | 0 <= i < |s| - 1 ensures !(s[i] == '\n' && s[i + 1] == '\n') {
        if i > k { assert s[i] == rest[i - k - 1] && s[i + 1] == rest[i - k]; }
      }
    }
  }
}
