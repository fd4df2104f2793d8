/**
  The numeric conversions the scripts rely on, on exact integers and reals: Python's `round()`
  (half to even), `int()` of a float (toward zero), `math.ceil` of a quotient, `np.clip`, and the
  peak magnitude `np.max(np.abs(x))`.
*/
module PyNum {

  function Abs(x: real): (r: real)
    ensures r >= 0.0 && (r == x || r == -x)
  {
    if x < 0.0 then -x else x
  }

  function Min(a: int, b: int): int { if a <= b then a else b }
  function Max(a: int, b: int): int { if a >= b then a else b }

  /** `np.clip(x, lo, hi)`, which is `min(max(x, lo), hi)` even when `lo > hi`. */
  function Clip(x: int, lo: int, hi: int): (r: int)
    ensures lo <= hi ==> lo <= r <= hi
    ensures lo <= x <= hi ==> r == x
    ensures hi < lo ==> r == hi
  {
    Min(Max(x, lo), hi)
  }

  /** `math.ceil(n / d)` for a positive divisor. */
  function CeilDiv(n: int, d: int): (r: int)
    requires d > 0
    ensures (r - 1) * d < n <= r * d
  {
    var q := n / d;
    if n % d == 0 then q else q + 1
  }

  /** `round(n / d)`: the nearest integer, ties to the even one. */
  function RoundHalfEven(n: int, d: int): (r: int)
    requires d > 0
    ensures 2 * (r * d - n) <= d && 2 * (n - r * d) <= d
    ensures 2 * (r * d - n) == d || 2 * (n - r * d) == d ==> r % 2 == 0
  {
    var q := n / d;
    var m := n % d;
    assert n == q * d + m;
    if 2 * m < d then q
    else if 2 * m > d then q + 1
    else if q % 2 == 0 then q
    else q + 1
  }

  /** `int(x)` for a float: truncation toward zero. */
  function Trunc(x: real): (r: int)
    ensures x >= 0.0 ==> r as real <= x < r as real + 1.0
    ensures x < 0.0 ==> r as real - 1.0 < x <= r as real
    ensures x >= 0.0 ==> r >= 0
  {
    if x >= 0.0 then x.Floor else -((-x).Floor)
  }

  /** `np.max(np.abs(x))` of a non-empty sequence. */
  function MaxAbs(x: seq<real>): (m: real)
    requires |x| > 0
    ensures forall i :: 0 <= i < |x| ==> Abs(x[i]) <= m
    ensures exists i :: 0 <= i < |x| && Abs(x[i]) == m
  {
    if |x| == 1 then
      assert Abs(x[0]) == Abs(x[0]);
      Abs(x[0])
    else
      var m := MaxAbs(x[..|x| - 1]);
      var last := Abs(x[|x| - 1]);
      var r := if last > m then last else m;
      assert forall i :: 0 <= i < |x| ==> Abs(x[i]) <= r by {
        forall i | 0 <= i < |x| ensures Abs(x[i]) <= r {
          if i < |x| - 1 { assert x[i] == x[..|x| - 1][i]; }
        }
      }
      assert exists i :: 0 <= i < |x| && Abs(x[i]) == r by {
        if last > m {
          assert Abs(x[|x| - 1]) == r;
        } else {
          var j :| 0 <= j < |x| - 1 && Abs(x[..|x| - 1][j]) == m;
          assert Abs(x[j]) == r;
        }
      }
      r
  }
}
