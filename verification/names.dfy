// Name grammars: labels, apex names, dotted domains, handles and scoped names.
module Names {
  import opened Wrappers
  import opened Errors
  import opened Text

  const MAX_NAME_LENGTH := 512
  const MAX_HANDLE_BODY := 255

  predicate IsAlnum(c: char) { 'a' <= c <= 'z' || 'A' <= c <= 'Z' || '0' <= c <= '9' }

  predicate IsLabelChar(c: char) { IsAlnum(c) || c == '_' || c == '-' }

  /** A DNS-style label: letters, digits, `_`, `-`, with an alphanumeric at both ends. */
  predicate IsLabel(s: string) {
    s != "" && IsAlnum(s[0]) && IsAlnum(s[|s| - 1]) && forall i | 0 <= i < |s| :: IsLabelChar(s[i])
  }

  function CountDots(s: string): nat {
    if s == "" then 0 else (if s[0] == '.' then 1 else 0) + CountDots(s[1..])
  }

  function SplitDots(s: string): seq<string> { Split(s, '.') }

  predicate AllLabels(parts: seq<string>) { forall i | 0 <= i < |parts| :: IsLabel(parts[i]) }

  /** `label(.label)+` */
  predicate IsDomain(s: string) { |SplitDots(s)| >= 2 && AllLabels(SplitDots(s)) }

  /** `label.label` */
  predicate IsTwoLabels(s: string) { |SplitDots(s)| == 2 && AllLabels(SplitDots(s)) }

  predicate IsHandleBody(s: string) {
    s != "" && |s| <= MAX_HANDLE_BODY && (IsAlnum(s[0]) || s[0] == '_')
    && forall i | 0 <= i < |s| :: IsLabelChar(s[i]) || s[i] == '.'
  }

  predicate IsHandle(s: string) { s != "" && s[0] == '@' && IsHandleBody(s[1..]) }

  predicate IsScoped(s: string) {
    var i := IndexOf(s, '@');
    i < |s| && IsHandleBody(s[..i]) && IsDomain(s[i + 1..])
  }

  /** `validate_modulr_core_registry_apex_name` */
  function ValidateApex(name: string, invalid: ErrorCode): Result<string, ErrorCode> {
    var s := Strip(name);
    if s == "" || |s| > MAX_NAME_LENGTH || CountDots(s) > 1 then Failure(invalid)
    else if CountDots(s) == 0 then (if IsLabel(s) then Success(s) else Failure(invalid))
    else if IsTwoLabels(s) then Success(s)
    else Failure(invalid)
  }

  /** `validate_modulr_resolve_name` */
  function ValidateResolve(name: string): Result<string, ErrorCode> {
    var s := Strip(name);
    if s == "" || |s| > MAX_NAME_LENGTH then Failure(InvalidName)
    else if IsHandle(s) || IsScoped(s) || IsDomain(s) then Success(s)
    else if IsLabel(s) then Success(s)
    else Failure(InvalidName)
  }

  lemma {:induction false} CountDotsBefore(s: string, i: nat)
    requires i <= |s| && forall j | 0 <= j < i :: s[j] != '.'
    ensures CountDots(s) == CountDots(s[i..])
  {
    if i > 0 {
      CountDotsBefore(s[1..], i - 1);
      assert s[1..][i - 1..] == s[i..];
    } else {
      assert s[0..] == s;
    }
  }

  lemma {:induction false} SplitDotsLength(s: string)
    ensures |SplitDots(s)| == CountDots(s) + 1
    decreases |s|
  {
    var i := IndexOf(s, '.');
    CountDotsBefore(s, i);
    if i < |s| {
      SplitDotsLength(s[i + 1..]);
      assert s[i..][1..] == s[i + 1..];
    }
  }

  /** A name without `@` is an apex name exactly when the resolve grammar accepts it and it has
      at most one dot; both validators then return the same text. */
  lemma ApexIffResolvable(name: string, invalid: ErrorCode)
    requires forall i | 0 <= i < |name| :: name[i] != '@'
    ensures ValidateApex(name, invalid).Success? <==>
            ValidateResolve(name).Success? && CountDots(Strip(name)) <= 1
    ensures ValidateApex(name, invalid).Success? ==>
              ValidateApex(name, invalid).value == ValidateResolve(name).value
  {
    var s := Strip(name);
    SplitDotsLength(s);
    NoAtMeansPlain(name);
    if CountDots(s) == 0 {
      var i := IndexOf(s, '.');
      CountDotsBefore(s, i);
      assert SplitDots(s) == [s];
    } else if IsLabel(s) {
      DotIsNoLabel(s);
    }
  }

  lemma DotIsNoLabel(s: string)
    requires CountDots(s) > 0
    ensures !IsLabel(s)
  {
    var i := IndexOf(s, '.');
    CountDotsBefore(s, i);
  }

  lemma NoAtMeansPlain(name: string)
    requires forall i | 0 <= i < |name| :: name[i] != '@'
    ensures !IsHandle(Strip(name)) && !IsScoped(Strip(name))
  {
    var l := DropLeft(name, IsPySpace);
    var s := Strip(name);
    forall i | 0 <= i < |s| ensures s[i] != '@' {
      assert s[i] == l[i] == name[|name| - |l| + i];
    }
  }

  /** Apex names never contain `@`, so everything registrable is resolvable unchanged, again and again. */
  lemma ApexIsResolvable(name: string, invalid: ErrorCode)
    requires ValidateApex(name, invalid).Success?
    ensures
      var n := ValidateApex(name, invalid).value;
      && ValidateResolve(name) == Success(n) && ValidateResolve(n) == Success(n)
      && ValidateApex(n, invalid) == Success(n)
  {
    var s := Strip(name);
    TrimIsTrimmed(name, IsPySpace);
    SplitDotsLength(s);
  }

  /** Letter case never matters to the apex grammar: a name is an apex name exactly when its
      lower-case form, the module's registry key, is. */
  lemma LowerApex(name: string, invalid: ErrorCode)
    requires Trimmed(name, IsPySpace)
    ensures ValidateApex(name, invalid).Success? <==> ValidateApex(Lower(name), invalid).Success?
    ensures ValidateApex(name, invalid).Success? ==>
              ValidateApex(name, invalid).value == name && ValidateApex(Lower(name), invalid).value == Lower(name)
  {
    hide IsLabel, SplitDots, CountDots, Trim;
    TrimIsTrimmed(name, IsPySpace);
    LowerKeepsTrim(name);
    LowerDots(name);
    LowerSplit(name);
    LowerLabel(name);
    forall part: string { LowerLabel(part); }
  }

  lemma LowerLabel(s: string)
    ensures IsLabel(Lower(s)) == IsLabel(s)
  {
    assert forall c :: IsAlnum(LowerChar(c)) == IsAlnum(c) && IsLabelChar(LowerChar(c)) == IsLabelChar(c);
    if IsLabel(Lower(s)) {
      forall i | 0 <= i < |s| ensures IsLabelChar(s[i]) { assert IsLabelChar(Lower(s)[i]); }
    }
  }

  lemma {:induction false} LowerDots(s: string)
    ensures CountDots(Lower(s)) == CountDots(s)
  {
    if s != "" {
      LowerDots(s[1..]);
      assert Lower(s)[1..] == Lower(s[1..]);
    }
  }

  lemma {:induction false} LowerSplit(s: string)
    ensures |SplitDots(Lower(s))| == |SplitDots(s)|
    ensures forall i | 0 <= i < |SplitDots(s)| :: SplitDots(Lower(s))[i] == Lower(SplitDots(s)[i])
    decreases |s|
  {
    var i := IndexOf(s, '.');
    var k := IndexOf(Lower(s), '.');
    assert k == i;
    if i < |s| {
      LowerSplit(s[i + 1..]);
      assert Lower(s)[i + 1..] == Lower(s[i + 1..]);
      assert Lower(s)[..i] == Lower(s[..i]);
    }
  }
}
