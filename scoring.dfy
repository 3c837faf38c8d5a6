/**
 * `calculatePoints` (App.jsx:130-135): a base of 10 points, half a point for
 * every second under 60, and two points for every roll under 10, rounded down.
 */
module Scoring {

  function Max(a: int, b: int): int {
    if a >= b then a else b
  }

  const BasePoints: int := 10

  /** The time bonus before halving: the seconds under a minute, or 0. */
  function TimeUnder(timeUsed: int): (k: int)
    ensures k >= 0 && (timeUsed <= 60 ==> k == 60 - timeUsed) && (timeUsed >= 60 ==> k == 0)
  {
    Max(0, 60 - timeUsed)
  }

  /** The rolls under ten, or 0. */
  function RollsUnder(rollsUsed: int): (m: int)
    ensures m >= 0 && (rollsUsed <= 10 ==> m == 10 - rollsUsed) && (rollsUsed >= 10 ==> m == 0)
  {
    Max(0, 10 - rollsUsed)
  }

  /**
   * The points in integer arithmetic. The JavaScript terms are all integers
   * except `k * 0.5`, so flooring the sum is the same as halving k with
   * integer division (CalculatePointsMatchesFloor).
   */
  function CalculatePoints(timeUsed: int, rollsUsed: int): int {
    BasePoints + TimeUnder(timeUsed) / 2 + 2 * RollsUnder(rollsUsed)
  }

  /** The formula exactly as App.jsx:131-134 writes it, on real numbers. */
  function PointsAsWritten(timeUsed: int, rollsUsed: int): int {
    (BasePoints as real + TimeUnder(timeUsed) as real * 0.5 + RollsUnder(rollsUsed) as real * 2.0).Floor
  }

  /** The integer formula agrees with the source's fractional one on every input. */
  lemma CalculatePointsMatchesFloor(timeUsed: int, rollsUsed: int)
    ensures CalculatePoints(timeUsed, rollsUsed) == PointsAsWritten(timeUsed, rollsUsed)
  {
    var k := TimeUnder(timeUsed);
    var m := RollsUnder(rollsUsed);
    var whole := BasePoints + k / 2 + 2 * m;
    var sum := BasePoints as real + k as real * 0.5 + m as real * 2.0;
    assert k == 2 * (k / 2) + k % 2;
    assert sum == whole as real + (k % 2) as real * 0.5;
    assert whole as real <= sum < whole as real + 1.0;
  }

  /** Whatever the time and the rolls, a win is worth at least the base 10 points. */
  lemma PointsAtLeastBase(timeUsed: int, rollsUsed: int)
    ensures CalculatePoints(timeUsed, rollsUsed) >= 10
  {
  }

  /** For non-negative time and rolls the points lie between 10 and 60. */
  lemma PointsBounds(timeUsed: int, rollsUsed: int)
    requires timeUsed >= 0 && rollsUsed >= 0
    ensures 10 <= CalculatePoints(timeUsed, rollsUsed) <= 60
  {
  }

  /** Taking longer or rolling more never earns more points. */
  lemma PointsNonIncreasing(t1: int, r1: int, t2: int, r2: int)
    requires t1 <= t2 && r1 <= r2
    ensures CalculatePoints(t2, r2) <= CalculatePoints(t1, r1)
  {
    assert TimeUnder(t2) <= TimeUnder(t1);
    assert TimeUnder(t2) / 2 <= TimeUnder(t1) / 2;
  }

  /** A sample instant win: no time used and no rolls gives the most points, 60. */
  lemma PointsInstantWin()
    ensures CalculatePoints(0, 0) == 60
  {
    assert TimeUnder(0) == 60 && RollsUnder(0) == 10;
    assert 60 / 2 == 30;
  }

  /** A sample slow win: a minute and ten rolls leave only the base 10 points. */
  lemma PointsSlowWin()
    ensures CalculatePoints(60, 10) == 10
  {
    assert TimeUnder(60) == 0 && RollsUnder(10) == 0;
    assert 0 / 2 == 0;
  }

  /** From a minute and ten rolls on, only the base points are left. */
  lemma PointsBaseOnly(timeUsed: int, rollsUsed: int)
    requires timeUsed >= 60 && rollsUsed >= 10
    ensures CalculatePoints(timeUsed, rollsUsed) == BasePoints
  {
  }
}
