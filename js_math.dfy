/** Exact-real stand-ins for the JavaScript `Math` functions the core uses.
    `Math.round` rounds half up (toward +infinity), so it is Floor(x + 1/2). */
module JsMath {

  /** Math.round */
  function Round(x: real): (r: int)
    ensures x - 1.0 / 2.0 < r as real <= x + 1.0 / 2.0
  {
    (x + 1.0 / 2.0).Floor
  }

  /** Math.ceil */
  function Ceil(x: real): (r: int)
    ensures x <= r as real < x + 1.0
  {
    -((-x).Floor)
  }

  /** Math.abs */
  function Abs(x: real): (r: real)
    ensures r >= 0.0 && (r == x || r == -x)
  {
    if x < 0.0 then -x else x
  }

  /** Math.max(a, b) */
  function Max(a: real, b: real): (r: real)
    ensures r >= a && r >= b && (r == a || r == b)
  {
    if a >= b then a else b
  }

  /** Math.min(a, b) */
  function Min(a: real, b: real): (r: real)
    ensures r <= a && r <= b && (r == a || r == b)
  {
    if a <= b then a else b
  }

  /** `Math.round(x * 10) / 10`: rounding to one decimal. */
  function RoundTenth(x: real): real
  {
    Round(x * 10.0) as real / 10.0
  }

  /** Rounding an integer gives it back. */
  lemma RoundOfInt(n: int)
    ensures Round(n as real) == n
  {
  }

  /** Adding an integer commutes with rounding. */
  lemma RoundShift(n: int, y: real)
    ensures Round(n as real + y) == n + Round(y)
  {
  }

  /** Math.round never decreases. */
  lemma RoundMonotone(x: real, y: real)
    requires x <= y
    ensures Round(x) <= Round(y)
  {
  }

  /** Math.ceil never decreases. */
  lemma CeilMonotone(x: real, y: real)
    requires x <= y
    ensures Ceil(x) <= Ceil(y)
  {
  }
}
