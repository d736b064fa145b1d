/** The numeric primitives the engines use, over exact reals: `abs`,
    `ceil`, `round(..., 0, PHP_ROUND_HALF_EVEN)` and `sqrt`.

    `sqrt` is not computable over the reals, so every member that needs it
    takes it as a parameter `sqrt` constrained by `IsSqrt`. */
module RealMath {

  function Abs(x: real): (r: real)
    ensures r >= 0.0
    ensures r == x || r == -x
  {
    if x < 0.0 then -x else x
  }

  /** `(int) ceil(x)`: the least integer not below `x`. */
  function Ceil(x: real): (k: int)
    ensures x <= k as real < x + 1.0
  {
    if x.Floor as real == x then x.Floor else x.Floor + 1
  }

  /** `Ceil` is the least integer at or above `x`. */
  lemma CeilLeast(x: real, j: int)
    requires x <= j as real
    ensures Ceil(x) <= j
  {
  }

  /** `floor` is pinned down by the unit interval it starts. */
  lemma FloorIs(x: real, k: int)
    requires k as real <= x < (k + 1) as real
    ensures x.Floor == k
  {
  }

  /** `(int) round(x, 0, PHP_ROUND_HALF_EVEN)`: the nearest integer, ties
      going to the even neighbour. */
  function RoundHalfEven(x: real): (k: int)
    ensures Abs(k as real - x) <= 0.5
    ensures Abs(k as real - x) == 0.5 ==> k % 2 == 0
  {
    var f := x.Floor;
    var frac := x - f as real;
    if frac < 0.5 then f
    else if frac > 0.5 then f + 1
    else if f % 2 == 0 then f
    else f + 1
  }

  /** The two contract clauses of `RoundHalfEven` pin the result down: any
      integer within one half of `x`, even on a tie, is that result. */
  lemma RoundHalfEvenUnique(x: real, j: int)
    requires Abs(j as real - x) <= 0.5
    requires Abs(j as real - x) == 0.5 ==> j % 2 == 0
    ensures j == RoundHalfEven(x)
  {
  }

  /** The near-zero threshold `1e-9` of every guarded division. */
  const Epsilon: real := 0.000000001

  /** `abs($centre) < 1e-9 ? 0.0 : ($spread / abs($centre)) * 100`: a spread
      as a percentage of the magnitude of a centre, 0 for a centre near zero.
      This is the coefficient-of-variation pattern of both engines. */
  function GuardedPercentage(spread: real, centre: real): (r: real)
    ensures Abs(centre) < Epsilon ==> r == 0.0
    ensures Abs(centre) >= Epsilon ==> r * Abs(centre) == 100.0 * spread
    ensures spread >= 0.0 ==> r >= 0.0
  {
    if Abs(centre) < Epsilon then 0.0
    else
      var q := spread / Abs(centre);
      assert q * Abs(centre) == spread;
      q * 100.0
  }

  /** `sqrt` behaves as the non-negative square root on non-negative reals. */
  ghost predicate IsSqrt(sqrt: real -> real) {
    forall x :: 0.0 <= x ==> 0.0 <= sqrt(x) && sqrt(x) * sqrt(x) == x
  }

  lemma ProductZero(a: real, b: real)
    ensures a * b == 0.0 ==> a == 0.0 || b == 0.0
  {
  }

  lemma SqrtZero(sqrt: real -> real)
    requires IsSqrt(sqrt)
    ensures sqrt(0.0) == 0.0
  {
    var r := sqrt(0.0);
    assert r * r == 0.0;
    ProductZero(r, r);
  }

  lemma SqrtPositive(sqrt: real -> real, x: real)
    requires IsSqrt(sqrt) && x > 0.0
    ensures sqrt(x) > 0.0
  {
    var r := sqrt(x);
    assert r * r == x;
  }

  /** The non-negative root is unique: `sqrt(y * y) == y` for `y >= 0`. */
  lemma SqrtOfSquare(sqrt: real -> real, y: real)
    requires IsSqrt(sqrt) && y >= 0.0
    ensures sqrt(y * y) == y
  {
    var r := sqrt(y * y);
    assert r >= 0.0 && r * r == y * y;
    assert (r - y) * (r + y) == 0.0;
    ProductZero(r - y, r + y);
  }

  /** For `c > 0`, comparing a root with `c` is comparing squares. */
  lemma SqrtBelow(sqrt: real -> real, x: real, c: real)
    requires IsSqrt(sqrt) && x >= 0.0 && c > 0.0
    ensures sqrt(x) < c <==> x < c * c
  {
    var r := sqrt(x);
    assert r >= 0.0 && r * r == x;
    if r < c {
      calc {
        x;
      == r * r;
      <= c * r;
      <  c * c;
      }
    } else {
      calc {
        x;
      == r * r;
      >= c * r;
      >= c * c;
      }
    }
  }
}
