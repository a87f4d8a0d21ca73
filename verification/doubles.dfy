// IEEE 754 binary64 numbers by integer arithmetic: the double nearest to a decimal, and the shortest
// decimal nearest to a double, which is what both runtimes print.
module Doubles {
  import opened Wrappers
  import opened Text

  const MAX_SAFE_INTEGER := 0x1F_FFFF_FFFF_FFFF
  const TWO_52 := 0x10_0000_0000_0000
  const TWO_53 := 0x20_0000_0000_0000
  const MIN_EXPONENT := -1074
  const MAX_EXPONENT := 971

  function Pow(b: nat, e: nat): nat { if e == 0 then 1 else b * Pow(b, e - 1) }

  lemma {:induction false} PowPositive(b: nat, e: nat)
    requires b > 0
    ensures Pow(b, e) > 0
  {
    if e > 0 { PowPositive(b, e - 1); }
  }

  // ---- decimals ---------------------------------------------------------------

  /** `m * 10^p`, negated when `neg`; the negative zero of both runtimes is told apart by its sign. */
  datatype Decimal = Decimal(neg: bool, m: nat, p: int)

  /** No trailing zero in the digits. */
  predicate Normal(m: nat, p: int) { if m == 0 then p == 0 else m % 10 != 0 }

  function Reduce(m: nat, p: int): (r: (nat, int))
    ensures Normal(r.0, r.1)
    ensures Normal(m, p) ==> r == (m, p)
  {
    if m == 0 then (0, 0) else if m % 10 == 0 then Reduce(m / 10, p + 1) else (m, p)
  }

  // ---- doubles ------------------------------------------------------------------

  /** The magnitude `q * 2^k`. */
  datatype Binary = Binary(q: nat, k: int)

  predicate IsBinary(b: Binary) {
    b.q < TWO_53 && MIN_EXPONENT <= b.k <= MAX_EXPONENT && (b.q >= TWO_52 || b.k == MIN_EXPONENT)
  }

  /** `n / d * 2^k` with the quotient brought below 2^53. */
  function ScaleUp(n: nat, d: nat, k: int): (nat, nat, int)
    requires d > 0
    decreases n - TWO_53 * d
  {
    if n >= TWO_53 * d then ScaleUp(n, 2 * d, k + 1) else (n, d, k)
  }

  /** ... and up to 2^52, or to the smallest exponent. */
  function ScaleDown(n: nat, d: nat, k: int): (nat, nat, int)
    requires d > 0
    decreases k - MIN_EXPONENT
  {
    if n < TWO_52 * d && k > MIN_EXPONENT then ScaleDown(2 * n, d, k - 1) else (n, d, k)
  }

  lemma {:induction false} ScaleBounds(n: nat, d: nat, k: int)
    requires d > 0 && k >= MIN_EXPONENT
    ensures
      var (n', d', k') := ScaleUp(n, d, k);
      d' > 0 && n' < TWO_53 * d' && k' >= k
    decreases n - TWO_53 * d
  {
    if n >= TWO_53 * d { ScaleBounds(n, 2 * d, k + 1); }
  }

  lemma {:induction false} ScaleDownBounds(n: nat, d: nat, k: int)
    requires d > 0 && k >= MIN_EXPONENT && n < TWO_53 * d
    ensures
      var (n', d', k') := ScaleDown(n, d, k);
      d' > 0 && n' < TWO_53 * d' && MIN_EXPONENT <= k' <= k && (n' >= TWO_52 * d' || k' == MIN_EXPONENT)
    decreases k - MIN_EXPONENT
  {
    if n < TWO_52 * d && k > MIN_EXPONENT { ScaleDownBounds(2 * n, d, k - 1); }
  }

  function Scaled(n: nat, d: nat): (r: (nat, nat, int))
    requires d > 0
    ensures r.1 > 0 && r.0 < TWO_53 * r.1 && r.2 >= MIN_EXPONENT && (r.0 >= TWO_52 * r.1 || r.2 == MIN_EXPONENT)
  {
    ScaleBounds(n, d, 0);
    var (n', d', k') := ScaleUp(n, d, 0);
    ScaleDownBounds(n', d', k');
    ScaleDown(n', d', k')
  }

  /** The integer nearest to `n / d`, ties to even. */
  function RoundHalfEven(n: nat, d: nat): (q: nat)
    requires d > 0
    ensures n / d <= q <= n / d + 1
  {
    var q, r := n / d, n % d;
    if 2 * r < d || (2 * r == d && q % 2 == 0) then q else q + 1
  }

  lemma QuotientBounds(n: nat, d: nat, lo: nat, hi: nat)
    requires d > 0
    ensures n >= lo * d ==> n / d >= lo
    ensures n < hi * d ==> n / d < hi
  {
    var q, r := n / d, n % d;
    assert n == q * d + r;
    assert (q + 1) * d == q * d + d;
    if q < lo { MulMonotone(q + 1, lo, d); }
    if q >= hi { MulMonotone(hi, q, d); }
  }

  lemma MulMonotone(a: nat, b: nat, d: nat)
    requires a <= b
    ensures a * d <= b * d
  {
    assert b * d == a * d + (b - a) * d;
  }

  /** The double nearest to `n / d`; none when it is beyond the largest one. */
  function NearestTo(n: nat, d: nat): (r: Option<Binary>)
    requires d > 0
    ensures r.Some? ==> IsBinary(r.value)
  {
    var (n', d', k) := Scaled(n, d);
    QuotientBounds(n', d', TWO_52, TWO_53);
    var q := RoundHalfEven(n', d');
    var b := if q == TWO_53 then Binary(TWO_52, k + 1) else Binary(q, k);
    if b.k > MAX_EXPONENT then None else Some(b)
  }

  /** The double nearest to `m * 10^p`: what reading a number text gives. */
  function Nearest(m: nat, p: int): (r: Option<Binary>)
    ensures r.Some? ==> IsBinary(r.value)
  {
    PowPositive(10, if p < 0 then -p else 0);
    if p >= 0 then NearestTo(m * Pow(10, p), 1) else NearestTo(m, Pow(10, -p))
  }

  // ---- rounding keeps doubles -----------------------------------------------------

  /** `n / d * 2^k == q * 2^e`, in integers. */
  predicate Represents(n: nat, d: nat, k: int, q: nat, e: int) {
    if k <= e then n == q * Pow(2, e - k) * d else n * Pow(2, k - e) == q * d
  }

  lemma RepresentsUp(n: nat, d: nat, k: int, q: nat, e: int)
    requires k < e
    ensures Represents(n, d, k, q, e) == Represents(n, 2 * d, k + 1, q, e)
  {
    var w := Pow(2, e - k - 1);
    assert Pow(2, e - k) == 2 * w;
    assert q * (2 * w) * d == q * w * (2 * d);
  }

  lemma RepresentsDown(n: nat, d: nat, k: int, q: nat, e: int)
    requires e < k
    ensures Represents(n, d, k, q, e) == Represents(2 * n, d, k - 1, q, e)
  {
    var w := Pow(2, k - 1 - e);
    assert Pow(2, k - e) == 2 * w;
    assert n * (2 * w) == 2 * n * w;
  }

  /** Scaling a number that is a double stops at its own significand and exponent. */
  lemma {:induction false} ScaleUpFinds(n: nat, d: nat, k: int, b: Binary)
    requires d > 0 && k >= MIN_EXPONENT && IsBinary(b) && Represents(n, d, k, b.q, b.k)
    ensures
      var (n', d', k') := ScaleUp(n, d, k);
      d' > 0 && n' < TWO_53 * d' && k' >= b.k && k' >= MIN_EXPONENT && Represents(n', d', k', b.q, b.k)
    decreases n - TWO_53 * d
  {
    if k < b.k {
      RepresentsUp(n, d, k, b.q, b.k);
      BigWhenBelow(n, d, k, b);
      ScaleUpFinds(n, 2 * d, k + 1, b);
    } else {
      SmallWhenAbove(n, d, k, b);
    }
  }

  lemma BigWhenBelow(n: nat, d: nat, k: int, b: Binary)
    requires d > 0 && MIN_EXPONENT <= k < b.k && IsBinary(b) && Represents(n, d, k, b.q, b.k)
    ensures n >= TWO_53 * d
  {
    var w := Pow(2, b.k - k - 1);
    PowPositive(2, b.k - k - 1);
    assert Pow(2, b.k - k) == 2 * w;
    assert b.q * (2 * w) >= TWO_52 * 2 by { MulMonotone(2, 2 * w, b.q); }
    MulMonotone(TWO_53, b.q * (2 * w), d);
  }

  lemma SmallWhenAbove(n: nat, d: nat, k: int, b: Binary)
    requires d > 0 && k >= b.k && IsBinary(b) && Represents(n, d, k, b.q, b.k)
    ensures n < TWO_53 * d && (k > b.k ==> n < TWO_52 * d)
  {
    MulMonotone(b.q, MAX_SAFE_INTEGER, d);
    if k > b.k {
      var w := Pow(2, k - b.k - 1);
      PowPositive(2, k - b.k - 1);
      assert Pow(2, k - b.k) == 2 * w;
      MulMonotone(2, 2 * w, n);
    } else {
      assert Pow(2, 0) == 1;
    }
  }

  lemma {:induction false} ScaleDownFinds(n: nat, d: nat, k: int, b: Binary)
    requires d > 0 && k >= b.k && IsBinary(b) && Represents(n, d, k, b.q, b.k)
    ensures
      var (n', d', k') := ScaleDown(n, d, k);
      d' > 0 && k' == b.k && n' == b.q * d'
    decreases k - MIN_EXPONENT
  {
    SmallWhenAbove(n, d, k, b);
    if k > b.k {
      RepresentsDown(n, d, k, b.q, b.k);
      ScaleDownFinds(2 * n, d, k - 1, b);
    } else {
      assert Pow(2, 0) == 1;
      assert n == b.q * d;
      MulMonotone(if b.q >= TWO_52 then TWO_52 else 0, b.q, d);
    }
  }

  /** A number that is a double is its own nearest double. */
  lemma NearestOfDouble(n: nat, d: nat, b: Binary)
    requires d > 0 && IsBinary(b) && Represents(n, d, 0, b.q, b.k)
    ensures NearestTo(n, d) == Some(b)
  {
    ScaleUpFinds(n, d, 0, b);
    var (n', d', k') := ScaleUp(n, d, 0);
    ScaleDownFinds(n', d', k', b);
    var (n2, d2, k2) := ScaleDown(n', d', k');
    QuotientOfMultiple(b.q, d2);
  }

  lemma QuotientOfMultiple(q: nat, d: nat)
    requires d > 0
    ensures q * d / d == q && q * d % d == 0 && RoundHalfEven(q * d, d) == q
  {
    QuotientBounds(q * d, d, q, q + 1);
    assert (q + 1) * d == q * d + d;
    assert q * d == (q * d / d) * d + q * d % d;
  }

  // ---- rounding keeps order ---------------------------------------------------------

  /** Sign of `n / d * 2^k - q * 2^e`, in integers. */
  function Gap(n: nat, d: nat, k: int, q: nat, e: int): int {
    if k <= e then n - q * Pow(2, e - k) * d else n * Pow(2, k - e) - q * d
  }

  predicate SameSign(a: int, b: int) { (a < 0) == (b < 0) && (a > 0) == (b > 0) }

  lemma PowStep(b: nat, e: nat)
    requires e > 0
    ensures Pow(b, e) == b * Pow(b, e - 1)
  {
  }

  lemma TwiceInside(q: int, w: int, d: int)
    ensures q * (2 * w) * d == q * w * (2 * d) == 2 * (q * w * d)
  {
    assert q * (2 * w) == 2 * (q * w);
    assert q * w * (2 * d) == 2 * (q * w * d);
  }

  lemma GapUp(n: nat, d: nat, k: int, q: nat, e: int)
    ensures SameSign(Gap(n, d, k, q, e), Gap(n, 2 * d, k + 1, q, e))
  {
    hide Pow;
    PowZero();
    if k < e {
      PowStep(2, e - k);
      TwiceInside(q, Pow(2, e - k - 1), d);
    } else {
      PowStep(2, k + 1 - e);
      TwiceInside(n, Pow(2, k - e), 1);
      TwiceInside(q, 1, d);
    }
  }

  lemma PowZero()
    ensures Pow(2, 0) == 1
  {
  }

  lemma GapDown(n: nat, d: nat, k: int, q: nat, e: int)
    ensures SameSign(Gap(n, d, k, q, e), Gap(2 * n, d, k - 1, q, e))
  {
    hide Pow;
    PowZero();
    if e < k {
      PowStep(2, k - e);
      TwiceInside(n, Pow(2, k - 1 - e), 1);
    } else {
      PowStep(2, e - k + 1);
      TwiceInside(q, Pow(2, e - k), d);
    }
  }

  lemma {:induction false} ScaleUpKeepsOrder(n: nat, d: nat, k: int, q: nat, e: int)
    requires d > 0
    ensures var (n', d', k') := ScaleUp(n, d, k); SameSign(Gap(n, d, k, q, e), Gap(n', d', k', q, e))
    decreases n - TWO_53 * d
  {
    if n >= TWO_53 * d {
      GapUp(n, d, k, q, e);
      ScaleUpKeepsOrder(n, 2 * d, k + 1, q, e);
    }
  }

  lemma {:induction false} ScaleDownKeepsOrder(n: nat, d: nat, k: int, q: nat, e: int)
    requires d > 0
    ensures var (n', d', k') := ScaleDown(n, d, k); SameSign(Gap(n, d, k, q, e), Gap(n', d', k', q, e))
    decreases k - MIN_EXPONENT
  {
    if n < TWO_52 * d && k > MIN_EXPONENT {
      GapDown(n, d, k, q, e);
      ScaleDownKeepsOrder(2 * n, d, k - 1, q, e);
    }
  }

  lemma ScaledKeepsOrder(n: nat, d: nat, q: nat, e: int)
    requires d > 0
    ensures var (n', d', k) := Scaled(n, d); SameSign(Gap(n, d, 0, q, e), Gap(n', d', k, q, e))
  {
    ScaleBounds(n, d, 0);
    ScaleUpKeepsOrder(n, d, 0, q, e);
    var (n', d', k') := ScaleUp(n, d, 0);
    ScaleDownKeepsOrder(n', d', k', q, e);
  }

  /** Order of doubles: exponent first, then significand. */
  predicate AtMost(a: Binary, b: Binary) { a.k < b.k || (a.k == b.k && a.q <= b.q) }

  lemma GapBelow(n: nat, d: nat, k: int, t: Binary)
    requires d > 0 && IsBinary(t) && t.q >= TWO_52 && n < TWO_53 * d && (n >= TWO_52 * d || k == MIN_EXPONENT)
    requires Gap(n, d, k, t.q, t.k) <= 0
    ensures k < t.k || (k == t.k && n <= t.q * d)
  {
    hide Pow;
    PowZero();
    MulMonotone(t.q, MAX_SAFE_INTEGER, d);
    if k > t.k {
      PowAtLeastTwo(k - t.k);
      MulMonotone(2, Pow(2, k - t.k), n);
    }
  }

  lemma GapAbove(n: nat, d: nat, k: int, t: Binary)
    requires d > 0 && IsBinary(t) && t.q >= TWO_52 && n < TWO_53 * d
    requires Gap(n, d, k, t.q, t.k) >= 0
    ensures k > t.k || (k == t.k && n >= t.q * d)
  {
    hide Pow;
    PowZero();
    if k < t.k {
      PowAtLeastTwo(t.k - k);
      TwiceSignificand(t.q, Pow(2, t.k - k));
      MulMonotone(TWO_53, t.q * Pow(2, t.k - k), d);
    }
  }

  lemma PowAtLeastTwo(e: nat)
    requires e > 0
    ensures Pow(2, e) >= 2
  {
    PowPositive(2, e - 1);
  }

  lemma TwiceSignificand(q: nat, w: nat)
    requires q >= TWO_52 && w >= 2
    ensures q * w >= TWO_53
  {
    MulMonotone(2, w, q);
  }

  /** A number on one side of a double has its nearest double on that side. */
  lemma NearestKeepsOrder(n: nat, d: nat, t: Binary)
    requires d > 0 && IsBinary(t) && t.q >= TWO_52
    ensures Gap(n, d, 0, t.q, t.k) <= 0 ==> NearestTo(n, d).Some? && AtMost(NearestTo(n, d).value, t)
    ensures Gap(n, d, 0, t.q, t.k) >= 0 && NearestTo(n, d).Some? ==> AtMost(t, NearestTo(n, d).value)
  {
    hide Gap;
    ScaledKeepsOrder(n, d, t.q, t.k);
    var (n', d', k) := Scaled(n, d);
    QuotientBounds(n', d', TWO_52, TWO_53);
    if Gap(n', d', k, t.q, t.k) <= 0 {
      GapBelow(n', d', k, t);
      if k == t.k { RoundsBelow(n', d', t.q); }
    }
    if Gap(n', d', k, t.q, t.k) >= 0 {
      GapAbove(n', d', k, t);
      if k == t.k { QuotientBounds(n', d', t.q, 0); }
    }
  }

  lemma RoundsBelow(n: nat, d: nat, q: nat)
    requires d > 0 && n <= q * d
    ensures RoundHalfEven(n, d) <= q
  {
    if n == q * d { QuotientOfMultiple(q, d); } else { QuotientBounds(n, d, 0, q); }
  }

  // ---- the exact decimal of a double ------------------------------------------------

  function ExactDigits(b: Binary): (nat, int) {
    if b.k >= 0 then (b.q * Pow(2, b.k), 0) else (b.q * Pow(5, -b.k), b.k)
  }

  /** `m * 10^p == q * 2^k`, in integers. */
  predicate IsValueOf(m: nat, p: int, b: Binary) {
    if p >= 0 then Represents(m * Pow(10, p), 1, 0, b.q, b.k) else Represents(m, Pow(10, -p), 0, b.q, b.k)
  }

  lemma {:induction false} PowTwoFive(e: nat)
    ensures Pow(5, e) * Pow(2, e) == Pow(10, e)
  {
    if e > 0 {
      PowTwoFive(e - 1);
      FiveTimesTwo(Pow(5, e - 1), Pow(2, e - 1));
    }
  }

  lemma FiveTimesTwo(a: int, b: int)
    ensures (5 * a) * (2 * b) == 10 * (a * b)
  {
    assert (5 * a) * (2 * b) == 5 * (a * (2 * b));
    assert a * (2 * b) == 2 * (a * b);
  }

  lemma ExactIsValue(b: Binary)
    ensures IsValueOf(ExactDigits(b).0, ExactDigits(b).1, b)
  {
    if b.k >= 0 {
      assert Pow(10, 0) == 1;
    } else {
      PowTwoFive(-b.k);
      assert b.q * Pow(5, -b.k) * Pow(2, -b.k) == b.q * (Pow(5, -b.k) * Pow(2, -b.k));
    }
  }

  lemma DropZero(m: nat, p: int, b: Binary)
    requires IsValueOf(10 * m, p, b)
    ensures IsValueOf(m, p + 1, b)
  {
    if p >= 0 {
      assert 10 * m * Pow(10, p) == m * Pow(10, p + 1) by { assert Pow(10, p + 1) == 10 * Pow(10, p); }
    } else {
      var d := Pow(10, -p - 1);
      assert Pow(10, -p) == 10 * d;
      if b.k >= 0 {
        assert 10 * m == b.q * Pow(2, b.k) * (10 * d) == 10 * (b.q * Pow(2, b.k) * d);
        assert m == b.q * Pow(2, b.k) * d;
      } else {
        assert 10 * m * Pow(2, -b.k) == 10 * (m * Pow(2, -b.k));
        assert b.q * (10 * d) == 10 * (b.q * d);
        assert m * Pow(2, -b.k) == b.q * d;
      }
      if p + 1 == 0 {
        assert d == 1 && Pow(10, 0) == 1 && m * 1 == m;
      }
    }
  }

  lemma {:induction false} ReduceKeepsValue(m: nat, p: int, b: Binary)
    requires IsValueOf(m, p, b)
    ensures IsValueOf(Reduce(m, p).0, Reduce(m, p).1, b)
  {
    if m == 0 {
      ZeroValue(p, b);
    } else if m % 10 == 0 {
      assert m == 10 * (m / 10);
      DropZero(m / 10, p, b);
      ReduceKeepsValue(m / 10, p + 1, b);
    }
  }

  lemma ZeroValue(p: int, b: Binary)
    requires IsValueOf(0, p, b)
    ensures IsValueOf(0, 0, b)
  {
    PowPositive(10, if p < 0 then -p else p);
    PowPositive(2, if b.k < 0 then -b.k else b.k);
    var d := if p >= 0 then 1 else Pow(10, -p);
    assert 0 * Pow(10, if p < 0 then 0 else p) == 0;
    if b.k >= 0 {
      assert b.q * Pow(2, b.k) * d == 0;
      if b.q > 0 {
        MulMonotone(1, Pow(2, b.k), b.q);
        MulMonotone(1, b.q * Pow(2, b.k), d);
      }
    } else {
      assert b.q * d == 0;
      if b.q > 0 { MulMonotone(1, b.q, d); }
    }
    assert b.q == 0;
  }

  lemma NearestOfValue(m: nat, p: int, b: Binary)
    requires IsBinary(b) && IsValueOf(m, p, b)
    ensures Nearest(m, p) == Some(b)
  {
    PowPositive(10, if p < 0 then -p else 0);
    if p >= 0 { NearestOfDouble(m * Pow(10, p), 1, b); } else { NearestOfDouble(m, Pow(10, -p), b); }
  }

  function Exact(b: Binary): (r: (nat, int))
    ensures Normal(r.0, r.1)
  {
    Reduce(ExactDigits(b).0, ExactDigits(b).1)
  }

  lemma NearestOfExact(b: Binary)
    requires IsBinary(b)
    ensures Nearest(Exact(b).0, Exact(b).1) == Some(b)
  {
    ExactIsValue(b);
    ReduceKeepsValue(ExactDigits(b).0, ExactDigits(b).1, b);
    NearestOfValue(Exact(b).0, Exact(b).1, b);
  }

  // ---- the shortest decimal -------------------------------------------------------------

  /** The decimals of `n` digits on both sides of `m * 10^p`, the nearer one first. */
  function Candidates(m: nat, p: int, n: nat): ((nat, int), (nat, int)) {
    var drop := if |Digits(m)| > n then |Digits(m)| - n else 0;
    PowPositive(10, drop);
    var unit := Pow(10, drop);
    var below, above := Reduce(m / unit, p + drop), Reduce(m / unit + 1, p + drop);
    if 2 * (m % unit) < unit || (2 * (m % unit) == unit && m / unit % 2 == 0) then (below, above) else (above, below)
  }

  /** The first candidate, by number of digits and then nearness, that reads back as the double. */
  function ShortestFrom(m: nat, p: int, b: Binary, n: nat): (r: (nat, int))
    requires IsBinary(b) && Normal(m, p) && Nearest(m, p) == Some(b)
    ensures Normal(r.0, r.1) && Nearest(r.0, r.1) == Some(b)
    decreases |Digits(m)| - n
  {
    if n >= |Digits(m)| then (m, p)
    else
      var (near, far) := Candidates(m, p, n);
      if Nearest(near.0, near.1) == Some(b) then near
      else if Nearest(far.0, far.1) == Some(b) then far
      else ShortestFrom(m, p, b, n + 1)
  }

  function Shortest(b: Binary): (r: (nat, int))
    requires IsBinary(b)
    ensures Normal(r.0, r.1) && Nearest(r.0, r.1) == Some(b)
  {
    NearestOfExact(b);
    ShortestFrom(Exact(b).0, Exact(b).1, b, 1)
  }

  // ---- doubles as their shortest decimals ---------------------------------------------------

  /** A finite double, given by the shortest decimal that reads back as it. */
  predicate IsDouble(x: Decimal) {
    Normal(x.m, x.p) && Nearest(x.m, x.p).Some? && Shortest(Nearest(x.m, x.p).value) == (x.m, x.p)
  }

  /** Reading a decimal: the nearest double, or none beyond the largest. */
  function ToDouble(neg: bool, m: nat, p: int): (r: Option<Decimal>)
    ensures r.Some? ==> IsDouble(r.value) && r.value.neg == neg
  {
    var (m', p') := Reduce(m, p);
    var b :- Nearest(m', p');
    var (sm, sp) := Shortest(b);
    Some(Decimal(neg, sm, sp))
  }

  /** A double reads back as itself, however many zeros its decimal is written with. */
  lemma ToDoubleOfDouble(x: Decimal, m: nat, p: int)
    requires IsDouble(x) && Reduce(m, p) == (x.m, x.p)
    ensures ToDouble(x.neg, m, p) == Some(x)
  {
  }

  function ValueOf(b: Binary): real {
    PowPositive(2, if b.k < 0 then -b.k else 0);
    if b.k >= 0 then (b.q * Pow(2, b.k)) as real else b.q as real / Pow(2, -b.k) as real
  }

  /** The number a double is. */
  function RealOf(x: Decimal): real {
    match Nearest(x.m, x.p)
    case None => 0.0  // no double
    case Some(b) => if x.neg then 0.0 - ValueOf(b) else ValueOf(b)
  }

  lemma ZeroIsDouble(neg: bool)
    ensures IsDouble(Decimal(neg, 0, 0)) && Nearest(0, 0) == Some(Binary(0, MIN_EXPONENT))
  {
    var b := Binary(0, MIN_EXPONENT);
    NearestOfValue(0, 0, b);
    assert Exact(b) == (0, 0);
  }
}
