// Number texts: the grammar of section 6 of RFC 8259, what reading a text gives, and what the
// runtimes print for a double.
module Numbers {
  import opened Wrappers
  import opened Text
  import opened Doubles

  // ---- grammar ------------------------------------------------------------------

  predicate IsNumberChar(c: char) {
    IsDigit(c) || c == '-' || c == '+' || c == '.' || c == 'e' || c == 'E'
  }

  predicate IsIntText(s: string) {
    var d := if s != "" && s[0] == '-' then s[1..] else s;
    d != "" && AllDigits(d) && (|d| == 1 || d[0] != '0')
  }

  function IntText(n: int): string {
    if n < 0 then "-" + Digits(-n) else Digits(n)
  }

  function IntValue(s: string): int
    requires IsIntText(s)
  {
    if s[0] == '-' then 0 - (Numeral(s[1..]) as int) else Numeral(s) as int
  }

  /** A text with a fraction or an exponent: `-whole.fraction e exponent`. */
  datatype Parts = Parts(neg: bool, whole: string, fraction: string, exponent: int)

  predicate IsExponent(s: string) {
    var digits := if s != "" && (s[0] == '-' || s[0] == '+') then s[1..] else s;
    digits != "" && AllDigits(digits)
  }

  function ExponentValue(s: string): int
    requires IsExponent(s)
  {
    if s[0] == '-' then 0 - (Numeral(s[1..]) as int) else if s[0] == '+' then Numeral(s[1..]) as int else Numeral(s) as int
  }

  predicate IsMark(c: char) { c == 'e' || c == 'E' }

  function ReadParts(s: string): (r: Option<Parts>)
    ensures r.Some? ==> AllDigits(r.value.whole) && AllDigits(r.value.fraction)
  {
    var e := FirstIndex(s, IsMark);
    var mantissa := s[..e];
    var dot := IndexOf(mantissa, '.');
    var whole := mantissa[..dot];
    var fraction := if dot < |mantissa| then mantissa[dot + 1..] else "";
    if (dot == |mantissa| && e == |s|) || !IsIntText(whole) || !AllDigits(fraction) || (dot < |mantissa| && fraction == "")
       || (e < |s| && !IsExponent(s[e + 1..])) || (exists i :: 0 <= i < |s| && !IsNumberChar(s[i]))
    then None
    else
      Some(Parts(whole[0] == '-', if whole[0] == '-' then whole[1..] else whole, fraction,
                 if e < |s| then ExponentValue(s[e + 1..]) else 0))
  }

  predicate IsFloatText(s: string) { ReadParts(s).Some? }

  /** `float(text)`: the nearest double; none stands for a text beyond the largest one. */
  function ReadFloat(s: string): (r: Option<Decimal>)
    ensures r.Some? ==> IsDouble(r.value)
  {
    var t :- ReadParts(s);
    ToDouble(t.neg, Numeral(AllDigitsConcat(t.whole, t.fraction)), t.exponent - |t.fraction|)
  }

  function AllDigitsConcat(a: string, b: string): (r: string)
    requires AllDigits(a) && AllDigits(b)
    ensures r == a + b && AllDigits(r)
  {
    a + b
  }

  // ---- printed forms ----------------------------------------------------------------

  function Signed(neg: bool, t: string): string { if neg then "-" + t else t }

  function Zeros(n: nat): (s: string)
    ensures |s| == n && forall i | 0 <= i < n :: s[i] == '0'
  {
    seq(n, i => '0')
  }

  function Pointed(whole: string, fraction: string): string { whole + "." + fraction }

  /** Digits with the point after the first one: `1.25`, or `1`. */
  function Mantissa(s: string): string
    requires s != ""
  {
    if |s| == 1 then s else Pointed(s[..1], s[1..])
  }

  /** Scientific exponent of `m * 10^p`. */
  function Magnitude(m: nat, p: int): int { |Digits(m)| - 1 + p }

  function ExponentText(e: int, padded: bool): string {
    var digits := Digits(if e < 0 then -e else e);
    (if e < 0 then "-" else "+") + (if padded && |digits| == 1 then "0" + digits else digits)
  }

  function Scientific(m: nat, p: int, padded: bool): string {
    Mantissa(Digits(m)) + "e" + ExponentText(Magnitude(m, p), padded)
  }

  /** Without exponent, always with a point. */
  function Fixed(m: nat, p: int): string {
    var s := Digits(m);
    if p >= 0 then Pointed(s + Zeros(p), "0")
    else if -p < |s| then Pointed(s[..|s| + p], s[|s| + p..])
    else Pointed("0", Zeros(-p - |s|) + s)
  }

  // ---- what the printers write ----------------------------------------------------------

  /** Python's `float.__repr__`, which `json.dumps` writes. */
  function PythonText(x: Decimal): string {
    Signed(x.neg,
           if x.m == 0 then "0.0"
           else if -4 <= Magnitude(x.m, x.p) < 16 then Fixed(x.m, x.p)
           else Scientific(x.m, x.p, true))
  }

  function Quotient(q: nat, w: nat): nat
    requires w > 0
  {
    q / w
  }

  /** The integer a double is, if it is one: `Number.isInteger`, `float.is_integer`. */
  function WholeMagnitude(x: Decimal): Option<nat> {
    var b :- Nearest(x.m, x.p);
    var w := Pow(2, if b.k < 0 then -b.k else b.k);
    if b.k >= 0 then Some(b.q * w)
    else
      PowPositive(2, -b.k);
      if b.q % w == 0 then Some(Quotient(b.q, w)) else None
  }

  /** The browser's `serializeJsonNumber` on a double. */
  function SerializeJsonNumber(x: Decimal): string {
    if x.m == 0 && x.neg then "-0.0"
    else match WholeMagnitude(x)
      case Some(n) => Signed(x.neg, if n <= MAX_SAFE_INTEGER then Digits(n) else Scientific(x.m, x.p, true))
      case None =>
        Signed(x.neg, if Magnitude(x.m, x.p) >= 16 || Magnitude(x.m, x.p) < -4 then Scientific(x.m, x.p, true) else Fixed(x.m, x.p))
  }

  /** `Number.prototype.toString`, which `JSON.stringify` writes, of a double it prints with a point or an exponent. */
  function StringifyNumber(x: Decimal): string {
    Signed(x.neg, if -6 <= Magnitude(x.m, x.p) < 21 then Fixed(x.m, x.p) else Scientific(x.m, x.p, false))
  }

  /** The doubles `JSON.stringify` prints as digits only. */
  predicate StringifiesAsDigits(x: Decimal) { x.m == 0 || (x.p >= 0 && Magnitude(x.m, x.p) < 21) }

  // ---- numerals ---------------------------------------------------------------------------

  lemma {:induction false} NumeralConcat(a: string, b: string)
    requires AllDigits(a) && AllDigits(b)
    ensures Numeral(AllDigitsConcat(a, b)) == Numeral(a) * Pow(10, |b|) + Numeral(b)
  {
    if b == "" {
      assert a + b == a && Pow(10, 0) == 1;
    } else {
      var c := b[..|b| - 1];
      NumeralConcat(a, c);
      assert (a + b)[..|a + b| - 1] == a + c;
      var w := Pow(10, |c|);
      assert Pow(10, |b|) == 10 * w;
      assert 10 * (Numeral(a) * w) == Numeral(a) * (10 * w);
    }
  }

  lemma {:induction false} NumeralOfZeros(n: nat)
    ensures AllDigits(Zeros(n)) && Numeral(Zeros(n)) == 0
  {
    if n > 0 {
      NumeralOfZeros(n - 1);
      assert Zeros(n)[..n - 1] == Zeros(n - 1);
    }
  }

  lemma ReduceTenfold(m: nat, p: int)
    requires m > 0
    ensures Reduce(10 * m, p) == Reduce(m, p + 1)
  {
  }

  lemma {:induction false} ReduceDropsZeros(m: nat, p: int, j: nat)
    requires m % 10 != 0
    ensures m * Pow(10, j) > 0 && Reduce(m * Pow(10, j), p) == (m, p + j)
    decreases j
  {
    hide Reduce, Pow;
    PowZeroOf(10);
    if j == 0 {
      ReducedAsIs(m, p);
    } else {
      PowStep(10, j);
      ReduceDropsZeros(m, p + 1, j - 1);
      ReduceTenfold(m * Pow(10, j - 1), p);
      MulAssociative(m, 10, Pow(10, j - 1));
      MulAssociative(10, m, Pow(10, j - 1));
    }
  }

  lemma ReducedAsIs(m: nat, p: int)
    requires m % 10 != 0
    ensures Reduce(m, p) == (m, p)
  {
  }

  lemma PowZeroOf(b: nat)
    ensures Pow(b, 0) == 1
  {
  }

  lemma MulAssociative(a: int, b: int, c: int)
    ensures a * (b * c) == (a * b) * c
  {
  }

  // ---- reading printed forms -----------------------------------------------------------------

  predicate IsWholeText(s: string) { s != "" && AllDigits(s) && (|s| == 1 || s[0] != '0') }

  lemma IndexOfUnique(s: string, c: char, i: nat)
    requires i <= |s| && (forall j | 0 <= j < i :: s[j] != c) && (i < |s| ==> s[i] == c)
    ensures IndexOf(s, c) == i
  {
  }

  lemma SignedWhole(neg: bool, whole: string)
    requires IsWholeText(whole)
    ensures
      var w := Signed(neg, whole);
      && IsIntText(w) && (w[0] == '-') == neg && (if neg then w[1..] == whole else w == whole)
      && forall i | 0 <= i < |w| :: IsNumberChar(w[i]) && w[i] != '.' && !IsMark(w[i])
  {
  }

  lemma DigitsAreNumberChars(s: string)
    requires AllDigits(s)
    ensures forall i | 0 <= i < |s| :: IsNumberChar(s[i]) && s[i] != '.' && !IsMark(s[i])
  {
  }

  lemma FirstIndexMark(s: string, i: nat)
    requires i <= |s| && (forall j | 0 <= j < i :: !IsMark(s[j])) && (i < |s| ==> IsMark(s[i]))
    ensures FirstIndex(s, IsMark) == i
  {
  }

  predicate AllNumberChars(s: string) { forall i | 0 <= i < |s| :: IsNumberChar(s[i]) }

  /** Reading, once the mark and the point are found. */
  lemma PartsFound(s: string, mantissa: string, w: string, fraction: string, ex: string)
    requires AllNumberChars(s) && FirstIndex(s, IsMark) == |mantissa| && s[..|mantissa|] == mantissa
    requires IndexOf(mantissa, '.') == |w| && mantissa[..|w|] == w && IsIntText(w) && AllDigits(fraction)
    requires if fraction == "" then mantissa == w && ex != "" else mantissa == w + "." + fraction
    requires if ex == "" then s == mantissa else s == mantissa + "e" + ex && IsExponent(ex)
    ensures
      ReadParts(s) == Some(Parts(w[0] == '-', if w[0] == '-' then w[1..] else w, fraction, if ex == "" then 0 else ExponentValue(ex)))
  {
    hide IsIntText, AllDigits, FirstIndex, IndexOf, IsExponent, ExponentValue, IsNumberChar;
    assert fraction != "" ==> mantissa[|w| + 1..] == fraction;
    assert ex != "" ==> s[|mantissa| + 1..] == ex;
  }

  lemma WholeAndFraction(neg: bool, whole: string, fraction: string)
    requires IsWholeText(whole) && AllDigits(fraction)
    ensures
      var w := Signed(neg, whole);
      var mantissa := if fraction == "" then w else w + "." + fraction;
      && IsIntText(w) && (w[0] == '-') == neg && (if neg then w[1..] == whole else w == whole)
      && IndexOf(mantissa, '.') == |w| && mantissa[..|w|] == w
      && AllNumberChars(mantissa) && (forall i | 0 <= i < |mantissa| :: !IsMark(mantissa[i]))
  {
    SignedWhole(neg, whole);
    DigitsAreNumberChars(fraction);
    hide IsIntText, IsWholeText, AllDigits, IndexOf, Signed;

    var w := Signed(neg, whole);
    var mantissa := if fraction == "" then w else w + "." + fraction;
    IndexOfUnique(mantissa, '.', |w|);
  }

  lemma PointedParts(neg: bool, whole: string, fraction: string)
    requires IsWholeText(whole) && AllDigits(fraction) && fraction != ""
    ensures ReadParts(Signed(neg, Pointed(whole, fraction))) == Some(Parts(neg, whole, fraction, 0))
  {
    SignedConcat(neg, whole, "." + fraction);
    hide IsIntText, IsWholeText, AllDigits, FirstIndex, IndexOf, Signed, IsExponent, ExponentValue, AllNumberChars, ReadParts, IsMark;
    var w := Signed(neg, whole);
    var t := w + "." + fraction;
    WholeAndFraction(neg, whole, fraction);
    FirstIndexMark(t, |t|);
    PartsFound(t, t, w, fraction, "");
    assert t == w + ("." + fraction) && whole + "." + fraction == whole + ("." + fraction);
  }

  lemma SignedConcat(neg: bool, a: string, b: string)
    ensures Signed(neg, a + b) == Signed(neg, a) + b
  {
    assert "-" + (a + b) == ("-" + a) + b;
  }

  function MantissaOf(whole: string, fraction: string): string { if fraction == "" then whole else Pointed(whole, fraction) }

  lemma SignedMantissa(neg: bool, whole: string, fraction: string)
    ensures Signed(neg, MantissaOf(whole, fraction)) == if fraction == "" then Signed(neg, whole) else Signed(neg, whole) + "." + fraction
  {
    hide Signed;
    if fraction != "" {
      SignedConcat(neg, whole, "." + fraction);
      assert Pointed(whole, fraction) == whole + ("." + fraction);
      assert Signed(neg, whole) + ("." + fraction) == Signed(neg, whole) + "." + fraction;
    }
  }

  lemma MantissaParts(neg: bool, whole: string, fraction: string, ex: string)
    requires IsWholeText(whole) && AllDigits(fraction) && IsExponent(ex)
    ensures ReadParts(Signed(neg, MantissaOf(whole, fraction) + "e" + ex)) == Some(Parts(neg, whole, fraction, ExponentValue(ex)))
  {
    hide *;
    var mantissa := Signed(neg, MantissaOf(whole, fraction));
    WholeAndFraction(neg, whole, fraction);
    SignedMantissa(neg, whole, fraction);
    ExponentChars(ex);
    ExponentAppended(mantissa, ex);
    PartsFound(mantissa + "e" + ex, mantissa, Signed(neg, whole), fraction, ex);
    SignedConcat(neg, MantissaOf(whole, fraction), "e" + ex);
    JoinExponent(MantissaOf(whole, fraction), ex);
    JoinExponent(mantissa, ex);
  }

  lemma JoinExponent(a: string, ex: string)
    ensures a + "e" + ex == a + ("e" + ex)
  {
  }

  lemma ExponentAppended(mantissa: string, ex: string)
    requires AllNumberChars(mantissa) && AllNumberChars(ex) && forall i | 0 <= i < |mantissa| :: !IsMark(mantissa[i])
    ensures
      var t := mantissa + "e" + ex;
      AllNumberChars(t) && FirstIndex(t, IsMark) == |mantissa| && t[..|mantissa|] == mantissa
  {
    hide FirstIndex;
    FirstIndexMark(mantissa + "e" + ex, |mantissa|);
  }

  lemma ExponentChars(ex: string)
    requires IsExponent(ex)
    ensures AllNumberChars(ex) && ex != ""
  {
    var digits := if ex[0] == '-' || ex[0] == '+' then ex[1..] else ex;
    assert forall i | 0 < i < |ex| && |digits| < |ex| :: ex[i] == digits[i - 1];
  }

  /** What a text with known parts reads as. */
  lemma PartsRead(s: string, t: Parts, m: nat)
    requires ReadParts(s) == Some(t) && Numeral(AllDigitsConcat(t.whole, t.fraction)) == m
    ensures ReadFloat(s) == ToDouble(t.neg, m, t.exponent - |t.fraction|)
  {
    hide ReadParts, ToDouble, Numeral;
  }

  lemma ExponentReads(e: int, padded: bool)
    ensures IsExponent(ExponentText(e, padded)) && ExponentValue(ExponentText(e, padded)) == e
  {
    var n: nat := if e < 0 then -e else e;
    var digits := Digits(n);
    NumeralOfDigits(n);
    NumeralConcat("0", digits);
    assert Numeral("0") == 0 by { assert "0"[..0] == ""; }
    var t := ExponentText(e, padded);
    assert t[1..] == if padded && |digits| == 1 then "0" + digits else digits;
  }

  lemma DigitsAreWhole(m: nat)
    ensures IsWholeText(Digits(m)) && Numeral(Digits(m)) == m && (m > 0 ==> Digits(m)[0] != '0')
  {
    NumeralOfDigits(m);
  }

  /** A scientific text reads back as the double, padded exponent or not. */
  lemma ScientificReads(x: Decimal, padded: bool)
    requires IsDouble(x) && x.m != 0
    ensures ReadFloat(Signed(x.neg, Scientific(x.m, x.p, padded))) == Some(x)
  {
    hide IsDouble, ToDouble, IsExponent, ExponentValue, ExponentText, IsWholeText, ReadParts, ReadFloat, Digits, AllDigits, Numeral, Signed;
    var s := Digits(x.m);
    var e := Magnitude(x.m, x.p);
    DigitsAreWhole(x.m);
    FirstDigitIsWhole(s);
    ExponentReads(e, padded);
    MantissaParts(x.neg, s[..1], s[1..], ExponentText(e, padded));
    assert s[..1] + s[1..] == s;
    assert |s| == 1 ==> s[..1] == s;
    PartsRead(Signed(x.neg, Scientific(x.m, x.p, padded)), Parts(x.neg, s[..1], s[1..], e), x.m);
    DoubleReads(x, x.m, x.p);
  }

  lemma FirstDigitIsWhole(s: string)
    requires IsWholeText(s)
    ensures IsWholeText(s[..1]) && AllDigits(s[1..])
  {
  }

  lemma DoubleReads(x: Decimal, m: nat, p: int)
    requires IsDouble(x) && m == x.m && p == x.p
    ensures ToDouble(x.neg, m, p) == Some(x)
  {
    hide ToDouble, Nearest, Shortest;
    ToDoubleOfDouble(x, m, p);
  }

  lemma NormalOfDouble(x: Decimal)
    requires IsDouble(x) && x.m != 0
    ensures x.m % 10 != 0
  {
    hide Nearest, Shortest;
  }

  lemma ScaledDoubleReads(x: Decimal, m: nat, j: nat)
    requires IsDouble(x) && x.m != 0 && m == x.m * Pow(10, j)
    ensures ToDouble(x.neg, m, x.p - j) == Some(x)
  {
    hide *;
    NormalOfDouble(x);
    ReduceDropsZeros(x.m, x.p - j, j);
    ToDoubleOfDouble(x, m, x.p - j);
  }

  /** A fixed text reads back as the double. */
  lemma FixedReads(x: Decimal)
    requires IsDouble(x) && x.m != 0
    ensures ReadFloat(Signed(x.neg, Fixed(x.m, x.p))) == Some(x)
  {
    hide IsDouble, ToDouble, IsWholeText, ReadParts, ReadFloat, Digits, AllDigits, Numeral, Signed;
    var s := Digits(x.m);
    DigitsAreWhole(x.m);
    if x.p >= 0 {
      LongFixed(x);
    } else if -x.p < |s| {
      var cut := |s| + x.p;
      PrefixIsWhole(s, cut);
      PointedParts(x.neg, s[..cut], s[cut..]);
      assert s[..cut] + s[cut..] == s;
      PartsRead(Signed(x.neg, Fixed(x.m, x.p)), Parts(x.neg, s[..cut], s[cut..], 0), x.m);
      DoubleReads(x, x.m, x.p);
    } else {
      SmallFixed(x);
    }
  }

  lemma PrefixIsWhole(s: string, cut: nat)
    requires IsWholeText(s) && 0 < cut < |s|
    ensures IsWholeText(s[..cut]) && AllDigits(s[cut..])
  {
  }

  lemma WholeWithZeros(s: string, n: nat)
    requires IsWholeText(s) && s[0] != '0'
    ensures IsWholeText(s + Zeros(n))
  {
  }

  lemma LongFixed(x: Decimal)
    requires IsDouble(x) && x.m != 0 && x.p >= 0
    ensures ReadFloat(Signed(x.neg, Fixed(x.m, x.p))) == Some(x)
  {
    hide IsDouble, ToDouble, ReadParts, ReadFloat, Digits, Numeral, Signed;
    var s := Digits(x.m);
    var whole := s + Zeros(x.p);
    DigitsAreWhole(x.m);
    NumeralOfZeros(x.p);
    NumeralOfZeros(1);
    assert Zeros(1) == "0";
    WholeWithZeros(s, x.p);
    PointedParts(x.neg, whole, "0");
    NumeralConcat(s, Zeros(x.p));
    NumeralConcat(whole, "0");
    var w := Pow(10, x.p);
    assert x.m * w * Pow(10, 1) == x.m * Pow(10, x.p + 1) by {
      assert Pow(10, 1) == 10 * Pow(10, 0) == 10;
      assert Pow(10, x.p + 1) == 10 * w;
    }
    PartsRead(Signed(x.neg, Fixed(x.m, x.p)), Parts(x.neg, whole, "0", 0), x.m * Pow(10, x.p + 1));
    ScaledDoubleReads(x, x.m * Pow(10, x.p + 1), x.p + 1);
  }

  lemma SmallFixed(x: Decimal)
    requires IsDouble(x) && x.m != 0 && -x.p >= |Digits(x.m)|
    ensures ReadFloat(Signed(x.neg, Fixed(x.m, x.p))) == Some(x)
  {
    hide IsDouble, ToDouble, ReadParts, ReadFloat, Digits, Numeral, Signed;
    var s := Digits(x.m);
    var zeros := Zeros(-x.p - |s|);
    DigitsAreWhole(x.m);
    NumeralOfZeros(-x.p - |s|);
    NumeralOfZeros(1);
    assert Zeros(1) == "0";
    PointedParts(x.neg, "0", zeros + s);
    NumeralConcat("0", zeros + s);
    NumeralConcat(zeros, s);
    PartsRead(Signed(x.neg, Fixed(x.m, x.p)), Parts(x.neg, "0", zeros + s, 0), x.m);
    DoubleReads(x, x.m, x.p);
  }

  // ---- what each printer writes reads back ---------------------------------------------------

  lemma ZeroReads(neg: bool)
    ensures ReadFloat(Signed(neg, "0.0")) == Some(Decimal(neg, 0, 0))
  {
    hide ToDouble, ReadParts, ReadFloat, IsDouble, Signed;
    ZeroIsDouble(neg);
    PointedParts(neg, "0", "0");
    NumeralOfZeros(1);
    NumeralConcat("0", "0");
    assert "0" == Zeros(1) && Pointed("0", "0") == "0.0";
    PartsRead(Signed(neg, "0.0"), Parts(neg, "0", "0", 0), 0);
    ToDoubleOfDouble(Decimal(neg, 0, 0), 0, -1);
  }

  lemma ZeroHasOneForm(x: Decimal)
    requires IsDouble(x) && x.m == 0
    ensures x == Decimal(x.neg, 0, 0)
  {
    hide Nearest, Shortest;
  }

  lemma PythonTextReads(x: Decimal)
    requires IsDouble(x)
    ensures ReadFloat(PythonText(x)) == Some(x)
  {
    hide IsDouble, ReadFloat, Signed, Magnitude, Fixed, Scientific;
    if x.m == 0 {
      ZeroHasOneForm(x);
      ZeroReads(x.neg);
    } else {
      FixedReads(x);
      ScientificReads(x, true);
    }
  }

  /** The doubles a browser does not print as an integer. */
  predicate PrintsAsFloat(x: Decimal) {
    if x.m == 0 then x.neg else WholeMagnitude(x).None? || WholeMagnitude(x).value > MAX_SAFE_INTEGER
  }

  lemma SerializeJsonNumberReads(x: Decimal)
    requires IsDouble(x) && PrintsAsFloat(x)
    ensures ReadFloat(SerializeJsonNumber(x)) == Some(x)
  {
    hide IsDouble, ReadFloat, Magnitude, Fixed, Scientific, WholeMagnitude;
    if x.m == 0 {
      ZeroHasOneForm(x);
      ZeroReads(true);
      assert "-" + "0.0" == "-0.0";
    } else {
      FixedReads(x);
      ScientificReads(x, true);
    }
  }

  lemma StringifyNumberReads(x: Decimal)
    requires IsDouble(x) && !StringifiesAsDigits(x)
    ensures ReadFloat(StringifyNumber(x)) == Some(x)
  {
    hide IsDouble, ReadFloat, Signed, Magnitude, Fixed, Scientific;
    FixedReads(x);
    ScientificReads(x, false);
  }

  lemma FloatTextIsNotInt(s: string)
    requires IsFloatText(s)
    ensures !IsIntText(s) && s != "" && (s[0] == '-' || IsDigit(s[0])) && AllNumberChars(s)
  {
    var e := FirstIndex(s, IsMark);
    var mantissa := s[..e];
    var dot := IndexOf(mantissa, '.');
    assert IsIntText(mantissa[..dot]);
    assert mantissa[..dot][0] == s[0];
    var k := if dot < |mantissa| then dot else e;
    assert k > 0 && !IsDigit(s[k]) && s[k] != '-';
  }

  // ---- where the two printers write the same text ---------------------------------------------

  const TEN_TO_16 := 10_000_000_000_000_000

  /** An integral double from 2^53 on and below 10^16. */
  predicate PrintsTwoWays(x: Decimal) {
    WholeMagnitude(x).Some? && TWO_53 <= WholeMagnitude(x).value < TEN_TO_16
  }

  lemma {:induction false} PowAdd(b: nat, i: nat, j: nat)
    ensures Pow(b, i + j) == Pow(b, i) * Pow(b, j)
  {
    if i > 0 {
      PowAdd(b, i - 1, j);
      MulAssociative(b, Pow(b, i - 1), Pow(b, j));
    }
  }

  lemma PowMonotone(b: nat, i: nat, j: nat)
    requires b > 0 && i <= j
    ensures Pow(b, i) <= Pow(b, j)
  {
    hide Pow;
    PowAdd(b, i, j - i);
    PowPositive(b, j - i);
    MulMonotone(1, Pow(b, j - i), Pow(b, i));
  }

  /** A numeral of `n` digits is at least `10^(n-1)` and below `10^n`. */
  lemma {:induction false} DigitsBound(m: nat)
    requires m > 0
    ensures Pow(10, |Digits(m)| - 1) <= m < Pow(10, |Digits(m)|)
  {
    if m >= 10 {
      DigitsBound(m / 10);
      var n := |Digits(m / 10)|;
      assert Pow(10, n) == 10 * Pow(10, n - 1) && Pow(10, n + 1) == 10 * Pow(10, n);
    } else {
      assert Pow(10, 1) == 10 * Pow(10, 0) == 10;
    }
  }

  /** The scientific exponent tells whether a decimal reaches a power of ten. */
  lemma MagnitudeTells(m: nat, p: int, e: nat)
    requires m > 0
    ensures p >= 0 ==> (Magnitude(m, p) >= e <==> m * Pow(10, p) >= Pow(10, e))
    ensures p < 0 ==> (Magnitude(m, p) >= e <==> m >= Pow(10, e) * Pow(10, -p))
  {
    DigitsBound(m);
    var n := |Digits(m)|;
    hide Digits;
    if p >= 0 {
      var w := Pow(10, p);
      PowPositive(10, p);
      PowAdd(10, n - 1, p);
      PowAdd(10, n, p);
      MulMonotone(Pow(10, n - 1), m, w);
      MulMonotone(m + 1, Pow(10, n), w);
      assert (m + 1) * w == m * w + w;
      if n - 1 + p >= e { PowMonotone(10, e, n - 1 + p); } else { PowMonotone(10, n + p, e); }
    } else {
      PowAdd(10, e, -p);
      if n - 1 >= e - p { PowMonotone(10, e - p, n - 1); } else { PowMonotone(10, n, e - p); }
    }
  }

  /** `10^16` as a double. */
  function Threshold(): Binary { Binary(5_000_000_000_000_000, 1) }

  lemma TenTo16Is()
    ensures Pow(10, 16) == TEN_TO_16
  {
    assert Pow(10, 4) == 10_000;
    assert Pow(10, 8) == 100_000_000 by { PowAdd(10, 4, 4); }
    PowAdd(10, 8, 8);
  }

  lemma ThresholdIsTen16()
    ensures IsBinary(Threshold()) && Shortest(Threshold()) == (1, 16)
  {
    TenTo16Is();
    ReduceDropsZeros(1, 0, 16);
    assert ExactDigits(Threshold()) == (TEN_TO_16, 0) by { assert Pow(2, 1) == 2 * Pow(2, 0) == 2; }
    assert Exact(Threshold()) == (1, 16);
    assert |Digits(1)| == 1;
  }

  /** Fraction whose nearest double `Nearest` takes. */
  function FractionOf(m: nat, p: int): (r: (nat, nat))
    ensures r.1 > 0
  {
    PowPositive(10, if p < 0 then -p else 0);
    if p >= 0 then (m * Pow(10, p), 1) else (m, Pow(10, -p))
  }

  lemma NearestIs(m: nat, p: int)
    ensures Nearest(m, p) == NearestTo(FractionOf(m, p).0, FractionOf(m, p).1)
  {
  }

  /** From `10^16` on a double prints with an exponent on both sides. */
  lemma ThresholdTells(x: Decimal)
    requires IsDouble(x) && x.m > 0
    ensures Magnitude(x.m, x.p) >= 16 <==> AtMost(Threshold(), Nearest(x.m, x.p).value)
  {
    hide NearestTo, Shortest, Exact, Reduce, Magnitude, Normal;
    var (n, d) := FractionOf(x.m, x.p);
    TenTo16Is();
    MagnitudeTells(x.m, x.p, 16);
    ThresholdIsTen16();
    NearestIs(x.m, x.p);
    NearestKeepsOrder(n, d, Threshold());
    assert Gap(n, d, 0, Threshold().q, 1) == n - TEN_TO_16 * d by { assert Pow(2, 1) == 2 * Pow(2, 0) == 2; }
    if Magnitude(x.m, x.p) < 16 && Nearest(x.m, x.p).value == Threshold() {
      assert false;
    }
  }

  /** Below one a double is no integer from 2^53 on. */
  lemma SmallIsBelowOne(x: Decimal)
    requires IsDouble(x) && x.m > 0 && Magnitude(x.m, x.p) < 0
    ensures Nearest(x.m, x.p).value.k < 0
  {
    hide NearestTo, Shortest, Magnitude, Normal;
    var (n, d) := FractionOf(x.m, x.p);
    var one := Binary(TWO_52, -52);
    MagnitudeTells(x.m, x.p, 0);
    NearestIs(x.m, x.p);
    NearestKeepsOrder(n, d, one);
    assert Pow(10, 0) == 1;
    TwoTo52Is();
    assert Gap(n, d, 0, TWO_52, -52) == n * TWO_52 - TWO_52 * d;
  }

  lemma TwoTo52Is()
    ensures Pow(2, 52) == TWO_52
  {
    assert Pow(2, 4) == 16;
    assert Pow(2, 8) == 256 by { PowAdd(2, 4, 4); }
    assert Pow(2, 12) == 4096 by { PowAdd(2, 8, 4); }
    assert Pow(2, 24) == 0x100_0000 by { PowAdd(2, 12, 12); }
    assert Pow(2, 48) == 0x1_0000_0000_0000 by { PowAdd(2, 24, 24); }
    PowAdd(2, 48, 4);
  }

  /** An integral double from 2^53 on has a positive exponent. */
  lemma WholeFromTwo53(b: Binary, n: nat, w: nat)
    requires IsBinary(b) && n >= TWO_53 && w > 0 && w == Pow(2, if b.k < 0 then -b.k else b.k)
    requires if b.k >= 0 then n == b.q * w else b.q % w == 0 && n == b.q / w
    ensures b.k >= 1
  {
    hide Pow;
    PowZero();
    QuotientBounds(b.q, w, 0, TWO_53);
    MulMonotone(1, w, TWO_53);
  }

  lemma WholeReaches(q: nat, k: nat, n: nat)
    requires k >= 1 && TWO_52 <= q < TWO_53 && n == q * Pow(2, k)
    ensures n >= TEN_TO_16 <==> AtMost(Threshold(), Binary(q, k))
  {
    hide Pow;
    PowZero();
    PowStep(2, k);
    if k > 1 {
      PowAtLeastTwo(k - 1);
      MulMonotone(4, Pow(2, k), q);
    }
  }

  /** An integral double is at least `10^16` exactly when its significand and exponent are. */
  lemma WholeTells(x: Decimal)
    requires IsDouble(x) && WholeMagnitude(x).Some? && WholeMagnitude(x).value >= TWO_53
    ensures
      var b := Nearest(x.m, x.p).value;
      b.k >= 1 && (WholeMagnitude(x).value >= TEN_TO_16 <==> AtMost(Threshold(), b))
  {
    hide Nearest, Shortest, Pow, AtMost, Threshold;
    var b := Nearest(x.m, x.p).value;
    var n := WholeMagnitude(x).value;
    PowPositive(2, if b.k < 0 then -b.k else b.k);
    WholeFromTwo53(b, n, Pow(2, if b.k < 0 then -b.k else b.k));
    WholeReaches(b.q, b.k, n);
    assert b == Binary(b.q, b.k);
  }

  lemma FixedIsNotScientific(m: nat, p: int, neg: bool)
    ensures Signed(neg, Fixed(m, p)) != Signed(neg, Scientific(m, p, true))
  {
    ScientificHasMark(m, p);
    FixedHasNoMark(m, p);
    hide Fixed, Scientific;
    var s, t := Fixed(m, p), Scientific(m, p, true);
    assert s == if neg then Signed(neg, s)[1..] else Signed(neg, s);
    assert t == if neg then Signed(neg, t)[1..] else Signed(neg, t);
  }

  lemma ScientificHasMark(m: nat, p: int)
    ensures exists i :: 0 <= i < |Scientific(m, p, true)| && Scientific(m, p, true)[i] == 'e'
  {
    hide Mantissa, Digits, ExponentText;
    assert Scientific(m, p, true)[|Mantissa(Digits(m))|] == 'e';
  }

  lemma FixedHasNoMark(m: nat, p: int)
    ensures forall i | 0 <= i < |Fixed(m, p)| :: Fixed(m, p)[i] != 'e'
  {
    var s := Digits(m);
    DigitsAreNumberChars(s);
    hide Digits;
  }

  /** The browser's text of a double is Python's exactly outside that range. */
  lemma FloatTextsAgreeIff(x: Decimal)
    requires IsDouble(x) && PrintsAsFloat(x)
    ensures SerializeJsonNumber(x) == PythonText(x) <==> !PrintsTwoWays(x)
  {
    hide IsDouble, Nearest, WholeMagnitude, Fixed, Scientific, Magnitude, Threshold;
    if x.m == 0 {
      ZeroHasOneForm(x);
      ZeroIsWhole(x);
      assert "-" + "0.0" == "-0.0";
    } else if WholeMagnitude(x).Some? {
      WholeTells(x);
      ThresholdTells(x);
      if Magnitude(x.m, x.p) < 0 { SmallIsBelowOne(x); }
      FixedIsNotScientific(x.m, x.p, x.neg);
    }
  }

  lemma ZeroIsWhole(x: Decimal)
    requires x.m == 0 && x.p == 0
    ensures WholeMagnitude(x) == Some(0)
  {
    ZeroIsDouble(x.neg);
    PowPositive(2, -MIN_EXPONENT);
    hide Nearest, Pow;
    assert Nearest(x.m, x.p).value == Binary(0, MIN_EXPONENT);
  }
}
