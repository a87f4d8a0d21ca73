// String helpers of the two runtimes: stripping, ASCII case, decimal numerals.
module Text {

  /** Characters `str.strip()` removes in Python. */
  predicate IsPySpace(c: char) {
    var n := c as int;
    9 <= n <= 13 || 28 <= n <= 32 || n == 0x85 || IsCommonWideSpace(n)
  }

  /** Characters `String.prototype.trim` removes in JavaScript. */
  predicate IsJsSpace(c: char) {
    var n := c as int;
    9 <= n <= 13 || n == 32 || n == 0xFEFF || IsCommonWideSpace(n)
  }

  predicate IsCommonWideSpace(n: int) {
    n == 0xA0 || n == 0x1680 || 0x2000 <= n <= 0x200A || n == 0x2028 || n == 0x2029
    || n == 0x202F || n == 0x205F || n == 0x3000
  }

  function DropLeft(s: string, drop: char -> bool): (r: string)
    ensures |r| <= |s|
    ensures r == s[|s| - |r|..]
    ensures r != "" ==> !drop(r[0])
    ensures forall i | 0 <= i < |s| - |r| :: drop(s[i])
  {
    if s != "" && drop(s[0]) then
      var r := DropLeft(s[1..], drop);
      assert forall i | 0 < i < |s| - |r| :: s[i] == s[1..][i - 1];
      r
    else s
  }

  function DropRight(s: string, drop: char -> bool): (r: string)
    ensures |r| <= |s|
    ensures r == s[..|r|]
    ensures r != "" ==> !drop(r[|r| - 1])
    ensures forall i | |r| <= i < |s| :: drop(s[i])
  {
    if s != "" && drop(s[|s| - 1]) then DropRight(s[..|s| - 1], drop) else s
  }

  function Trim(s: string, drop: char -> bool): string {
    DropRight(DropLeft(s, drop), drop)
  }

  function Strip(s: string): string { Trim(s, IsPySpace) }

  /** Neither end of a non-empty text is dropped: exactly the texts `Trim` keeps as they are. */
  predicate Trimmed(s: string, drop: char -> bool) {
    s != "" ==> !drop(s[0]) && !drop(s[|s| - 1])
  }

  lemma TrimIsTrimmed(s: string, drop: char -> bool)
    ensures Trimmed(Trim(s, drop), drop)
    ensures Trimmed(s, drop) ==> Trim(s, drop) == s
    ensures Trim(Trim(s, drop), drop) == Trim(s, drop)
  {
    var l := DropLeft(s, drop);
    var r := DropRight(l, drop);
    if r != "" { assert r[0] == l[0]; }
    assert Trimmed(r, drop);
    assert DropLeft(r, drop) == r && DropRight(r, drop) == r;
  }

  /** A text vanishes under `Trim` exactly when every character of it is dropped. */
  lemma TrimEmptyIff(s: string, drop: char -> bool)
    ensures Trim(s, drop) == "" <==> forall i | 0 <= i < |s| :: drop(s[i])
  {
    var l := DropLeft(s, drop);
    if i :| 0 <= i < |s| && !drop(s[i]) {
      assert l != "" && DropRight(l, drop) != "";
    }
  }

  // ---- splitting ---------------------------------------------------------

  function FirstIndex(s: string, p: char -> bool): (i: nat)
    ensures i <= |s|
    ensures forall j | 0 <= j < i :: !p(s[j])
    ensures i < |s| ==> p(s[i])
  {
    if s == "" || p(s[0]) then 0
    else
      var i := FirstIndex(s[1..], p);
      assert forall j | 0 < j <= i :: s[j] == s[1..][j - 1];
      i + 1
  }

  function IndexOf(s: string, c: char): (i: nat)
    ensures i <= |s|
    ensures forall j | 0 <= j < i :: s[j] != c
    ensures i < |s| ==> s[i] == c
  {
    if s == "" || s[0] == c then 0
    else
      var i := IndexOf(s[1..], c);
      assert forall j | 0 < j <= i :: s[j] == s[1..][j - 1];
      i + 1
  }

  /** `split` on one character: always at least one part. */
  function Split(s: string, sep: char): (parts: seq<string>)
    ensures |parts| >= 1
    decreases |s|
  {
    var i := IndexOf(s, sep);
    if i == |s| then [s] else [s[..i]] + Split(s[i + 1..], sep)
  }

  function LowerChar(c: char): char {
    if 'A' <= c <= 'Z' then ((c as int) + 32) as char else c
  }

  function Lower(s: string): (r: string)
    ensures |r| == |s|
    ensures forall i | 0 <= i < |s| :: r[i] == LowerChar(s[i])
  {
    seq(|s|, i requires 0 <= i < |s| => LowerChar(s[i]))
  }

  lemma LowerIdempotent(s: string)
    ensures Lower(Lower(s)) == Lower(s)
  {
  }

  lemma LowerKeepsTrim(s: string)
    requires Trimmed(s, IsPySpace)
    ensures Trimmed(Lower(s), IsPySpace)
    ensures Strip(Lower(s)) == Lower(s)
  {
    TrimIsTrimmed(Lower(s), IsPySpace);
  }

  // ---- decimal numerals -------------------------------------------------

  predicate IsDigit(c: char) { '0' <= c <= '9' }

  predicate AllDigits(s: string) { forall i | 0 <= i < |s| :: IsDigit(s[i]) }

  function Digits(n: nat): (s: string)
    ensures s != "" && AllDigits(s)
  {
    if n < 10 then [((n + 48) as char)] else Digits(n / 10) + [((n % 10 + 48) as char)]
  }

  function Numeral(s: string): nat
    requires AllDigits(s)
  {
    if s == "" then 0 else 10 * Numeral(s[..|s| - 1]) + (s[|s| - 1] as int - 48)
  }

  /** Decimal printing is inverted by `Numeral` and never writes a leading zero. */
  lemma {:induction false} NumeralOfDigits(n: nat)
    ensures Numeral(Digits(n)) == n
    ensures n > 0 ==> Digits(n)[0] != '0'
    ensures |Digits(n)| == 1 || Digits(n)[0] != '0'
  {
    if n >= 10 {
      NumeralOfDigits(n / 10);
      assert Digits(n)[..|Digits(n)| - 1] == Digits(n / 10);
    }
  }
}
