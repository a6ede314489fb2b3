/** Shared vocabulary: optional values, results with an error kind, identifiers and
    the JavaScript rounding operations the marketplace code uses. */
module Common {

  datatype Option<+T> = None | Some(value: T)

  datatype Result<+T, +E> = Ok(value: T) | Err(error: E)

  type UserId = nat
  type ProductId = nat
  type OfferId = nat

  /** Clock readings: `getMonth() + 1`, `getDay()` (0 is Sunday, 6 is Saturday) and `getHours()`. */
  type Month = m: int | 1 <= m <= 12 witness 1
  type Weekday = d: int | 0 <= d <= 6
  type Hour = h: int | 0 <= h <= 23

  /** `Math.round(x)`: rounds half-way cases up. */
  function RoundHalfUp(x: real): (r: int)
    ensures r as real <= x + 0.5 < r as real + 1.0
  {
    (x + 0.5).Floor
  }

  /** `Math.round(x * 10) / 10`: one decimal place. */
  function Round1(x: real): (r: real)
    ensures x - 0.05 < r <= x + 0.05
    ensures (r * 10.0).Floor as real == r * 10.0
  {
    RoundHalfUp(x * 10.0) as real / 10.0
  }

  /** `Math.min(a, b)` and `Math.max(a, b)` on real numbers. */
  function MinReal(a: real, b: real): (r: real)
    ensures r <= a && r <= b && (r == a || r == b)
  {
    if a <= b then a else b
  }

  function MaxReal(a: real, b: real): (r: real)
    ensures r >= a && r >= b && (r == a || r == b)
  {
    if a >= b then a else b
  }

  /** `Math.round(x * 100) / 100`: two decimal places. */
  function Round2(x: real): (r: real)
    ensures x - 0.005 < r <= x + 0.005
    ensures (r * 100.0).Floor as real == r * 100.0
  {
    RoundHalfUp(x * 100.0) as real / 100.0
  }

  /** `xs.reduce((sum, x) => sum + x, 0)`. */
  function Sum(xs: seq<real>): real
  {
    if xs == [] then 0.0 else Sum(xs[..|xs| - 1]) + xs[|xs| - 1]
  }

  /** `Math.min(...xs)` on a non-empty list. */
  function SeqMin(xs: seq<real>): (m: real)
    requires xs != []
    ensures m in xs && forall x :: x in xs ==> m <= x
  {
    if |xs| == 1 then xs[0]
    else
      var rest := SeqMin(xs[..|xs| - 1]);
      assert forall x :: x in xs ==> x in xs[..|xs| - 1] || x == xs[|xs| - 1];
      MinReal(rest, xs[|xs| - 1])
  }

  /** `Math.max(...xs)` on a non-empty list. */
  function SeqMax(xs: seq<real>): (m: real)
    requires xs != []
    ensures m in xs && forall x :: x in xs ==> x <= m
  {
    if |xs| == 1 then xs[0]
    else
      var rest := SeqMax(xs[..|xs| - 1]);
      assert forall x :: x in xs ==> x in xs[..|xs| - 1] || x == xs[|xs| - 1];
      MaxReal(rest, xs[|xs| - 1])
  }

  /** A sum of values between `lo` and `hi` lies between |xs| x lo and |xs| x hi. */
  lemma {:induction false} SumBetween(xs: seq<real>, lo: real, hi: real)
    requires forall x :: x in xs ==> lo <= x <= hi
    ensures |xs| as real * lo <= Sum(xs) <= |xs| as real * hi
  {
    if xs != [] {
      var init := xs[..|xs| - 1];
      assert forall x :: x in init ==> x in xs;
      assert xs[|xs| - 1] in xs;
      SumBetween(init, lo, hi);
      assert |xs| as real * lo == |init| as real * lo + lo;
      assert |xs| as real * hi == |init| as real * hi + hi;
    }
  }

  /** A sum reaches |xs| x lo, for values at least `lo`, only when every value is `lo`. */
  lemma {:induction false} SumAtMinimum(xs: seq<real>, lo: real)
    requires forall x :: x in xs ==> lo <= x
    requires Sum(xs) == |xs| as real * lo
    ensures forall x :: x in xs ==> x == lo
  {
    if xs != [] {
      var init := xs[..|xs| - 1];
      var last := xs[|xs| - 1];
      assert forall x :: x in init ==> x in xs;
      assert last in xs;
      var n := |init| as real;
      SumLowerBound(init, lo);
      assert |xs| as real * lo == n * lo + lo;
      assert Sum(init) == n * lo && last == lo;
      SumAtMinimum(init, lo);
      assert forall x :: x in xs ==> x in init || x == last;
    }
  }

  /** A list of equal values sums to |xs| times that value. */
  lemma {:induction false} SumOfEqual(xs: seq<real>, v: real)
    requires forall x :: x in xs ==> x == v
    ensures Sum(xs) == |xs| as real * v
  {
    if xs != [] {
      var init := xs[..|xs| - 1];
      assert forall x :: x in init ==> x in xs;
      assert xs[|xs| - 1] in xs;
      SumOfEqual(init, v);
      assert |xs| as real * v == |init| as real * v + v;
    }
  }

  lemma {:induction false} SumLowerBound(xs: seq<real>, lo: real)
    requires forall x :: x in xs ==> lo <= x
    ensures |xs| as real * lo <= Sum(xs)
  {
    if xs != [] {
      var init := xs[..|xs| - 1];
      assert forall x :: x in init ==> x in xs;
      assert xs[|xs| - 1] in xs;
      SumLowerBound(init, lo);
      assert |xs| as real * lo == |init| as real * lo + lo;
    }
  }

  /** Dividing a total that lies between n x lo and n x hi by n gives a mean between lo and hi. */
  lemma MeanBetween(total: real, n: real, lo: real, hi: real)
    requires n > 0.0 && n * lo <= total <= n * hi
    ensures lo <= total / n <= hi
    ensures total / n * n == total
  {
    var a := total / n;
    assert a * n == total;
    assert (a - lo) * n >= 0.0;
    assert (hi - a) * n >= 0.0;
  }

  /** Dividing a total of at least lo x n by n gives at least lo. */
  lemma MeanAtLeast(total: real, n: real, lo: real)
    requires n > 0.0 && lo * n <= total
    ensures lo <= total / n
  {
    var a := total / n;
    assert a * n == total;
    assert (a - lo) * n >= 0.0;
  }

  /** The mean of a non-empty list lies between its minimum and its maximum. */
  lemma {:induction false} MeanWithinExtremes(xs: seq<real>)
    requires xs != []
    ensures SeqMin(xs) <= Sum(xs) / |xs| as real <= SeqMax(xs)
  {
    var lo, hi, n, total := SeqMin(xs), SeqMax(xs), |xs| as real, Sum(xs);
    assert n * lo <= total <= n * hi by {
      SumBetween(xs, lo, hi);
    }
    MeanBetween(total, n, lo, hi);
  }

  lemma MeanEquals(total: real, n: real, m: real)
    requires n > 0.0
    ensures total / n == m <==> total == n * m
  {
  }

  /** The mean of values at least `m` equals `m` exactly when every value is `m`. */
  lemma MeanAtMinimum(xs: seq<real>, m: real)
    requires xs != [] && forall x :: x in xs ==> m <= x
    ensures Sum(xs) / |xs| as real == m <==> forall x :: x in xs ==> x == m
  {
    MeanEquals(Sum(xs), |xs| as real, m);
    if Sum(xs) / |xs| as real == m {
      SumAtMinimum(xs, m);
    }
    if forall x :: x in xs ==> x == m {
      SumOfEqual(xs, m);
    }
  }

  /** Multiplying by a positive factor keeps a strict order, both ways. */
  lemma ScaleStrict(a: real, b: real, c: real)
    requires c > 0.0
    ensures a * c > b * c <==> a > b
  {
    assert a * c - b * c == (a - b) * c;
    if a > b {
      assert (a - b) * c > 0.0 * c;
    } else {
      assert (b - a) * c >= 0.0 * c;
    }
  }

  lemma ProductNonNegative(a: real, b: real)
    requires 0.0 <= a && 0.0 <= b
    ensures 0.0 <= a * b
  {
    assert a * b >= 0.0 * b;
  }

  /** Between non-negative numbers, the squares are ordered as the numbers are. */
  lemma SquaresCompare(x: real, y: real)
    requires x >= 0.0 && y >= 0.0
    ensures x * x > y * y <==> x > y
  {
    if x > y {
      ScaleStrict(x, y, x);
      ProductNonNegative(x, y);
      if y > 0.0 {
        ScaleStrict(x, y, y);
      }
    } else {
      ProductNonNegative(y, x);
      if x > 0.0 {
        ScaleStrict(y, x, x);
      }
      if y > 0.0 {
        ScaleStrict(y, x, y);
      }
    }
  }
}
