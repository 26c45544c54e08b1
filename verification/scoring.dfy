/** Points: what a kill is worth, and the running total of a number of equal awards. */
module Scoring {

  /** Points for shooting down an obstacle, and for ramming one under a shield
      (both multiplied by the score multiplier). */
  const LaserKillPoints: nat := 20
  const RamPoints: nat := 10

  /** The points of n awards of `award` points each, added one award at a time. */
  function Awarded(award: nat, n: nat): nat {
    if n == 0 then 0 else Awarded(award, n - 1) + award
  }

  /** n awards of `points` times `multiplier` add up to their product. */
  lemma {:induction false} AwardedIsProduct(points: nat, multiplier: nat, n: nat)
    ensures Awarded(points * multiplier, n) == points * multiplier * n
  {
    if n > 0 {
      AwardedIsProduct(points, multiplier, n - 1);
    }
  }
}
