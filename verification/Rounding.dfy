/** Rounding to a tenth of a second. */
module Rounding {
  /** math.Round: halves away from zero. */
  function Round(x: real): int {
    if x >= 0.0 then (x + 0.5).Floor else -((0.5 - x).Floor)
  }

  function Tenth(x: real): real {
    Round(x * 10.0) as real / 10.0
  }

  lemma RoundIsNear(x: real)
    ensures -0.5 <= Round(x) as real - x <= 0.5
  {
  }

  /** A half goes away from zero. */
  lemma HalvesGoAway(n: nat)
    ensures Round(n as real + 0.5) == n + 1 && Round(-(n as real + 0.5)) == -(n + 1)
  {
    assert (n as real + 0.5 + 0.5).Floor == n + 1;
    assert (0.5 - -(n as real + 0.5)).Floor == n + 1;
  }

  lemma RoundMonotone(x: real, y: real)
    requires x <= y
    ensures Round(x) <= Round(y)
  {
    RoundIsNear(x);
    RoundIsNear(y);
    FloorMonotone(x + 0.5, y + 0.5);
    FloorMonotone(0.5 - y, 0.5 - x);
  }

  lemma FloorMonotone(x: real, y: real)
    requires x <= y
    ensures x.Floor <= y.Floor
  {
  }

  lemma TenthMonotone(x: real, y: real)
    requires x <= y
    ensures Tenth(x) <= Tenth(y)
  {
    RoundMonotone(x * 10.0, y * 10.0);
  }

  lemma TenthIsNear(x: real)
    ensures -0.05 <= Tenth(x) - x <= 0.05
  {
    RoundIsNear(x * 10.0);
  }
}
