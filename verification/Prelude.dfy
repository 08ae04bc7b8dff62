/** Real-number arithmetic and small containers shared by every module. */
module Prelude {

  datatype Option<+T> = None | Some(value: T)

  /** The two resources the controller sizes. */
  datatype Resource = CPU | Memory

  function Max(a: real, b: real): (m: real)
    ensures m >= a && m >= b && (m == a || m == b)
  {
    if a >= b then a else b
  }

  function Min(a: real, b: real): (m: real)
    ensures m <= a && m <= b && (m == a || m == b)
  {
    if a <= b then a else b
  }

  function Abs(a: real): (m: real)
    ensures m >= 0.0 && m >= a && m >= -a
  {
    if a >= 0.0 then a else -a
  }

  /** math.Round: the nearest integer, halves away from zero. */
  function Round(x: real): (n: int)
    ensures -0.5 <= n as real - x <= 0.5
    ensures x >= 0.0 ==> n >= 0 && n as real - x > -0.5
  {
    if x >= 0.0 then (x + 0.5).Floor else -((-x + 0.5).Floor)
  }

  /** math.Ceil. */
  function Ceil(x: real): (n: int)
    ensures 0.0 <= n as real - x < 1.0
  {
    -((-x).Floor)
  }

  /** int64(x): truncation toward zero. */
  function Trunc(x: real): (n: int)
    ensures x >= 0.0 ==> 0.0 <= x - n as real < 1.0 && n >= 0
    ensures x < 0.0 ==> 0.0 <= n as real - x < 1.0 && n <= 0
  {
    if x >= 0.0 then x.Floor else -((-x).Floor)
  }

  lemma RoundMonotone(x: real, y: real)
    requires x <= y
    ensures Round(x) <= Round(y)
  {
    if 0.0 <= x {
      assert (x + 0.5).Floor <= (y + 0.5).Floor;
    }
  }

  /** Rounding leaves an integer alone, so an integer bound survives rounding. */
  lemma RoundBelow(x: real, n: int)
    requires x <= n as real
    ensures Round(x) <= n
  {
    RoundMonotone(x, n as real);
    assert Round(n as real) == n;
  }

  lemma RoundAbove(x: real, n: int)
    requires n as real <= x
    ensures n <= Round(x)
  {
    RoundMonotone(n as real, x);
    assert Round(n as real) == n;
  }
}
