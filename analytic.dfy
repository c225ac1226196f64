/** Real-number support shared by every model in this project.

    The repository computes with IEEE doubles and calls numpy's square root,
    logarithms, exponential and fractional powers.  Here arithmetic is exact
    over `real`, and the transcendental functions are opaque arrows bundled,
    together with pi, in an `Elementary` value that callers pass in.  `Lawful`
    lists the only facts the proofs are allowed to use about them.
 */
module Analytic {

  /** Python's `float('inf')` / `np.inf` next to ordinary finite values. */
  datatype Ext = Fin(v: real) | Inf {

    /** `this < x` for a finite bound `x`, as Python compares floats (inf is never below). */
    predicate Below(x: real) {
      Fin? && v < x
    }

    /** `this <= o`, with +inf the largest value. */
    predicate AtMost(o: Ext) {
      match (this, o)
      case (_, Inf) => true
      case (Inf, Fin(_)) => false
      case (Fin(a), Fin(b)) => a <= b
    }
  }

  /** Python's `min(a, b)` on two possibly infinite values. */
  function MinExt(a: Ext, b: Ext): (r: Ext)
    ensures r.AtMost(a) && r.AtMost(b)
    ensures r == a || r == b
  {
    if a.AtMost(b) then a else b
  }

  /** `np.min` of a non-empty series that may hold +inf. */
  function SeriesMinExt(s: seq<Ext>): (r: Ext)
    requires |s| > 0
    ensures forall i :: 0 <= i < |s| ==> r.AtMost(s[i])
    ensures r in s
  {
    if |s| == 1 then s[0] else MinExt(s[0], SeriesMinExt(s[1..]))
  }

  /** `np.max` of a non-empty real series. */
  function SeqMax(s: seq<real>): (r: real)
    requires |s| > 0
    ensures forall i :: 0 <= i < |s| ==> s[i] <= r
    ensures r in s
  {
    if |s| == 1 then s[0] else Max(s[0], SeqMax(s[1..]))
  }

  /** What `np.max` raises for an empty array. */
  const EmptyReductionError: string := "zero-size array to reduction operation maximum which has no identity"

  /** A series whose head is above every later entry has its head as maximum. */
  lemma MaxAtHead(s: seq<real>)
    requires |s| > 0 && forall j :: 0 < j < |s| ==> s[j] < s[0]
    ensures SeqMax(s) == s[0]
  {
    var k :| 0 <= k < |s| && s[k] == SeqMax(s);
    assert s[0] <= SeqMax(s);
  }

  /** `np.min` of a non-empty real series. */
  function SeqMin(s: seq<real>): (r: real)
    requires |s| > 0
    ensures forall i :: 0 <= i < |s| ==> r <= s[i]
    ensures r in s
  {
    if |s| == 1 then s[0] else Min(s[0], SeqMin(s[1..]))
  }

  /** `np.linspace(start, stop, num)`: num evenly spaced values, the last exactly stop. */
  function Linspace(start: real, stop: real, num: nat): (r: seq<real>)
    ensures |r| == num
    ensures num >= 1 ==> r[0] == start
    ensures num >= 2 ==> r[num - 1] == stop
  {
    if num == 1 then [start]
    else
      var step := if num >= 2 then (stop - start) / (num - 1) as real else 0.0;
      assert num >= 2 ==> ((num - 1) as real) * step == stop - start;
      seq(num, i requires 0 <= i < num => start + (i as real) * step)
  }

  /** With start < stop the values strictly increase and stay within [start, stop]. */
  lemma LinspaceIncreasing(start: real, stop: real, num: nat, i: nat, j: nat)
    requires start < stop && i < j < num
    ensures start <= Linspace(start, stop, num)[i] < Linspace(start, stop, num)[j] <= stop
  {
    var step := (stop - start) / (num - 1) as real;
    assert step > 0.0;
    var a, b, c := (i as real) * step, (j as real) * step, ((num - 1) as real) * step;
    assert b - a == ((j - i) as real) * step;
    assert c - b == ((num - 1 - j) as real) * step;
    ProductSigns((j - i) as real, step);
    ProductSigns(i as real, step);
    ProductSigns((num - 1 - j) as real, step);
  }

  /** An interpolation start + f*(stop - start) with 0 <= f <= 1 stays between the ends. */
  lemma Interpolation(start: real, stop: real, f: real)
    requires 0.0 <= f <= 1.0
    ensures Min(start, stop) <= start + f * (stop - start) <= Max(start, stop)
  {
    var w := stop - start;
    if w > 0.0 {
      ProductSigns(f, w);
      ProductSigns(1.0 - f, w);
    } else if w < 0.0 {
      ProductSigns(f, -w);
      ProductSigns(1.0 - f, -w);
    }
  }

  /** Whatever the direction, every value lies between the two ends. */
  lemma LinspaceBetween(start: real, stop: real, num: nat, i: nat)
    requires i < num
    ensures Min(start, stop) <= Linspace(start, stop, num)[i] <= Max(start, stop)
  {
    if num >= 2 {
      var d := (num - 1) as real;
      var f := (i as real) / d;
      assert (i as real) * ((stop - start) / d) == f * (stop - start);
      assert f <= 1.0 by { assert (i as real) <= d; }
      Interpolation(start, stop, f);
    }
  }

  /** `np.argmax`, and Python's `max` over keys: the first index of the maximum. */
  function ArgMax(s: seq<real>): (k: nat)
    requires |s| > 0
    ensures k < |s| && s[k] == SeqMax(s)
    ensures forall j :: 0 <= j < k ==> s[j] < s[k]
  {
    if |s| == 1 then 0
    else if s[0] >= SeqMax(s[1..]) then 0
    else 1 + ArgMax(s[1..])
  }

  /** Sum of a real series (the numerator of `np.mean`). */
  function Sum(s: seq<real>): real
  {
    if s == [] then 0.0 else s[0] + Sum(s[1..])
  }

  lemma {:induction false} SumOfOnes(s: seq<real>)
    requires forall i :: 0 <= i < |s| ==> s[i] == 1.0
    ensures Sum(s) == |s| as real
  {
    if s != [] {
      SumOfOnes(s[1..]);
    }
  }

  function Max(a: real, b: real): (r: real)
    ensures r >= a && r >= b && (r == a || r == b)
  {
    if a >= b then a else b
  }

  function Min(a: real, b: real): (r: real)
    ensures r <= a && r <= b && (r == a || r == b)
  {
    if a <= b then a else b
  }

  /** `np.clip(x, lo, hi)` for `lo <= hi`. */
  function Clip(x: real, lo: real, hi: real): (r: real)
    requires lo <= hi
    ensures lo <= r <= hi
    ensures lo <= x <= hi ==> r == x
    ensures x < lo ==> r == lo
    ensures hi < x ==> r == hi
  {
    if x < lo then lo else if x > hi then hi else x
  }

  function Abs(x: real): (r: real)
    ensures r >= 0.0 && (r == x || r == -x)
  {
    if x < 0.0 then -x else x
  }

  /** The transcendental functions and the constant pi the source takes from numpy. */
  datatype Elementary = Elementary(
    sqrt: real -> real,
    log10: real -> real,
    ln: real -> real,
    exp: real -> real,
    pow: (real, real) -> real,
    pi: real)

  /** The minimal facts the proofs may rely on. */
  ghost predicate Lawful(e: Elementary)
  {
    && (forall x :: 0.0 <= x ==> 0.0 <= e.sqrt(x) && e.sqrt(x) * e.sqrt(x) == x)
    && (forall x, y :: 0.0 <= x <= y ==> e.sqrt(x) <= e.sqrt(y))
    && (forall x :: 1.0 <= x ==> 0.0 <= e.log10(x))
    && (forall x :: 0.0 < e.exp(x))
    && e.exp(0.0) == 1.0
    && 3.14159 < e.pi < 3.14160
  }

  /** Squaring is monotone on the non-negative reals. */
  lemma SquareMonotone(a: real, b: real)
    requires 0.0 <= a && 0.0 <= b
    ensures a <= b ==> a * a <= b * b
    ensures a < b ==> a * a < b * b
  {
    if a < b {
      var aa, ab, bb := a * a, a * b, b * b;
      assert aa <= ab by { assert 0.0 <= a * (b - a); }
      assert ab < bb by { assert 0.0 < (b - a) * b; }
    }
  }

  /** `x**2`. */
  function Square(x: real): real
  {
    x * x
  }

  /** A square is never negative, and positive for a non-zero base. */
  lemma SquarePositive(x: real)
    ensures Square(x) >= 0.0
    ensures x != 0.0 ==> Square(x) > 0.0
  {
    if x != 0.0 {
      calc {
        Square(x);
        == x * x;
        > { if x < 0.0 { assert x * x == (-x) * (-x); } }
        0.0;
      }
    } else {
      assert Square(x) == 0.0;
    }
  }

  /** Squaring is strictly increasing on the non-negative reals. */
  lemma SquareIncreasing(a: real, b: real)
    requires 0.0 <= a < b
    ensures Square(a) < Square(b)
  {
    calc {
      Square(a);
      == a * a;
      <= { assert a * (b - a) >= 0.0; }
      a * b;
      < { assert (b - a) * b > 0.0; }
      b * b;
      == Square(b);
    }
  }

  /** The sign of a product with a positive factor. */
  lemma ProductSigns(a: real, b: real)
    requires b > 0.0
    ensures a >= 0.0 ==> a * b >= 0.0
    ensures a > 0.0 ==> a * b > 0.0
  {
  }

  /** The sign of a quotient by a positive divisor. */
  lemma QuotientSign(a: real, b: real)
    requires b > 0.0
    ensures a >= 0.0 ==> a / b >= 0.0
    ensures a > 0.0 ==> a / b > 0.0
  {
    var q := a / b;
    assert q * b == a;
    ProductSigns(-q, b);
  }

  /** Rules for moving a common divisor. */
  lemma DivMul(x: real, a: real, k: real)
    requires k != 0.0
    ensures (x / k) * a == (x * a) / k
  {
  }

  lemma DivSub(x: real, y: real, k: real)
    requires k != 0.0
    ensures x / k - y / k == (x - y) / k
  {
  }

  lemma DivAdd(x: real, y: real, k: real)
    requires k != 0.0
    ensures x / k + y / k == (x + y) / k
  {
  }

  lemma DivDiv(x: real, k: real, a: real)
    requires k != 0.0 && a != 0.0
    ensures x / k / a == (x / a) / k
  {
  }

  lemma DivSelf(x: real, k: real)
    requires k != 0.0
    ensures (x * k) / k == x
  {
  }

  /** A quotient is determined by the product it inverts. */
  lemma DivideBack(x: real, s: real, y: real)
    requires s != 0.0 && y * s == x
    ensures x / s == y
  {
  }

  /** Multiplying by a positive factor keeps the order. */
  lemma ScaleOrder(a: real, b: real, c: real)
    requires c > 0.0
    ensures a <= b ==> a * c <= b * c
    ensures a < b ==> a * c < b * c
  {
    ProductSigns(b - a, c);
  }

  /** Dividing a positive amount by a larger positive divisor gives less. */
  lemma QuotientDecreasing(a: real, x: real, y: real)
    requires a > 0.0 && 0.0 < x < y
    ensures a / y < a / x
  {
    var q1, q2 := a / x, a / y;
    assert q1 * x == a && q2 * y == a;
    ProductSigns(q2, y - x);
    assert q2 * x < a;
    ScaleOrder(q1, q2, x);
  }

  /** Two non-negative reals with equal squares are equal. */
  lemma SquareInjective(a: real, b: real)
    requires 0.0 <= a && 0.0 <= b && a * a == b * b
    ensures a == b
  {
    SquareMonotone(a, b);
    SquareMonotone(b, a);
  }

  /** Squaring is strictly increasing on the non-negative reals, read backwards. */
  lemma SquareReflectsOrder(a: real, b: real)
    requires 0.0 <= a && 0.0 <= b && a * a < b * b
    ensures a < b
  {
    SquareMonotone(b, a);
  }

  /** The square root of a square is the (non-negative) base. */
  lemma SqrtOfSquare(e: Elementary, x: real)
    requires Lawful(e)
    requires 0.0 <= x
    ensures e.sqrt(x * x) == x
  {
    SquareInjective(e.sqrt(x * x), x);
  }

  /** Scaling under the root: sqrt(k*k*y) = k*sqrt(y) for k, y >= 0. */
  lemma SqrtScale(e: Elementary, k: real, y: real)
    requires Lawful(e)
    requires 0.0 <= k && 0.0 <= y
    ensures e.sqrt(k * k * y) == k * e.sqrt(y)
  {
    var t := k * e.sqrt(y);
    assert t * t == k * k * (e.sqrt(y) * e.sqrt(y));
    SquareInjective(e.sqrt(k * k * y), t);
  }

  /** The root is strictly increasing on the non-negative reals. */
  lemma SqrtStrictlyIncreasing(e: Elementary, x: real, y: real)
    requires Lawful(e)
    requires 0.0 <= x < y
    ensures e.sqrt(x) < e.sqrt(y)
  {
    SquareReflectsOrder(e.sqrt(x), e.sqrt(y));
  }

  /** A positive argument has a positive root. */
  lemma SqrtPositive(e: Elementary, x: real)
    requires Lawful(e)
    requires 0.0 < x
    ensures 0.0 < e.sqrt(x)
  {
    assert 0.0 <= e.sqrt(x) && e.sqrt(x) * e.sqrt(x) == x;
  }
}
