/**
 * The few pieces of Python built-in behaviour that the modelled scripts rely
 * on: `int()` of a float, `range` with a positive step, list reversal with
 * `[::-1]`, and the ceiling of an integer division.
 */
module Builtins {

  /** Python's `int(v)` for a float `v`: truncation toward zero. */
  function IntOf(v: real): (r: int)
    ensures v >= 0.0 ==> 0 <= r && r as real <= v < r as real + 1.0
    ensures v < 0.0 ==> r <= 0 && r as real - 1.0 < v <= r as real
  {
    if v >= 0.0 then v.Floor else -((-v).Floor)
  }

  /** The elements of `range(start, stop, step)` for a positive `step`, in order. */
  function Range(start: int, stop: int, step: int): (r: seq<int>)
    requires step > 0
    ensures start >= stop ==> r == []
    ensures forall k :: 0 <= k < |r| ==> r[k] == start + k * step
    ensures start < stop ==> (|r| - 1) * step < stop - start <= |r| * step
    decreases stop - start
  {
    if start < stop then [start] + Range(start + step, stop, step) else []
  }

  /** The least `q` with `a <= q * b`, for `a >= 0` and `b > 0`. */
  function CeilDiv(a: int, b: int): (q: int)
    requires a >= 0 && b > 0
  {
    (a + b - 1) / b
  }

  /** `CeilDiv` is the ceiling: the only `q` with `(q - 1) * b < a <= q * b`. */
  lemma CeilDivUnique(q: int, a: int, b: int)
    requires a >= 0 && b > 0
    requires (q - 1) * b < a <= q * b
    ensures q == CeilDiv(a, b)
  {
    var d, m := (a + b - 1) / b, (a + b - 1) % b;
    assert a + b - 1 == d * b + m && 0 <= m < b;
    assert q * b <= a + b - 1 < (d + 1) * b;
    FactorLess(q, d + 1, b);
    assert d * b <= a + b - 1 < (q + 1) * b;
    FactorLess(d, q + 1, b);
  }

  /** Comparing two multiples of the same positive `b` compares the factors. */
  lemma FactorLess(x: int, y: int, b: int)
    requires b > 0 && x * b < y * b
    ensures x < y
  {
    assert x * b - y * b == (x - y) * b;
  }

  /** Dividing a multiple of `b` by `b` gives the factor back exactly. */
  lemma DivideMultiple(a: int, b: int)
    requires b > 0
    ensures (a * b) / b == a && (a * b) % b == 0
  {
    var q, r := (a * b) / b, (a * b) % b;
    assert a * b == q * b + r && 0 <= r < b;
    assert (a - q) * b == r;
    if a - q >= 1 {
      MulLess(1, a - q, b);
    } else if a - q <= -1 {
      MulLess(a - q, -1, b);
    }
  }

  /** Multiplying by a positive number keeps a strict order. */
  lemma MulLess(x: int, y: int, b: int)
    requires b >= 0 && x <= y
    ensures x * b <= y * b
    ensures b > 0 && x < y ==> x * b < y * b
  {
    var d := y - x;
    assert y * b == x * b + d * b;
    assert d * b >= 0;
  }

  /** `range(start, stop, step)` has `ceil((stop - start) / step)` elements. */
  lemma RangeLength(start: int, stop: int, step: int)
    requires step > 0
    ensures |Range(start, stop, step)| == if start < stop then CeilDiv(stop - start, step) else 0
  {
    if start < stop {
      CeilDivUnique(|Range(start, stop, step)|, stop - start, step);
    }
  }

  /** The reversal of a list, as `s[::-1]` gives it. */
  function Reversed<T>(s: seq<T>): (r: seq<T>)
    ensures |r| == |s|
    ensures forall i :: 0 <= i < |s| ==> r[i] == s[|s| - 1 - i]
  {
    if s == [] then [] else Reversed(s[1..]) + [s[0]]
  }
}
