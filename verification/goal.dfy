/** The moon: hidden for the first thirty seconds, then lowered towards the rocket. */
module Goal {
  import opened Geometry
  import opened Motion

  /** Simulation ticks per second of game time. */
  const TicksPerSecond: nat := 60
  /** The moon shows up once thirty seconds of game time have passed. */
  const MoonAppearTick: nat := 30 * TicksPerSecond
  const MoonHiddenY: real := 50.0
  /** Height at which the moon is placed when it shows up. */
  const MoonEntryY: real := 40.0
  const MoonX: real := 0.0
  /** No win can happen before this tick (see EarliestWin). */
  const EarliestWinTick: nat := 2052

  /** The moon's height at the end of tick t: placed at MoonEntryY on the tick it appears and
      lowered by the scroll speed on that tick and every later one. */
  function MoonY(t: nat): (y: real)
    requires t >= MoonAppearTick
    ensures y <= MoonEntryY - ScrollSpeed
  {
    MoonEntryY - ScrollSpeed * ((t - MoonAppearTick + 1) as real)
  }

  /** From one tick to the next the moon is lowered by exactly the scroll speed. */
  lemma MoonDescends(t: nat)
    requires t >= MoonAppearTick
    ensures MoonY(t + 1) == MoonY(t) - ScrollSpeed
  {
  }

  /** The moon's schedule: at the end of tick t it is shown exactly when t >= MoonAppearTick,
      at the height MoonY(t), and is otherwise parked at MoonHiddenY. */
  predicate MoonAt(visible: bool, y: real, t: nat) {
    && (visible <==> t >= MoonAppearTick)
    && (visible ==> y == MoonY(t))
    && (!visible ==> y == MoonHiddenY)
  }

  /** The moon update of tick t: a hidden moon whose time has come is shown at MoonEntryY,
      then a shown moon is lowered by the scroll speed. */
  function MoonStep(visible: bool, y: real, t: nat): (r: (bool, real))
    ensures r.0 <==> visible || t >= MoonAppearTick
    ensures !r.0 ==> r.1 == y
  {
    var shown := visible || t >= MoonAppearTick;
    var placed := if !visible && t >= MoonAppearTick then MoonEntryY else y;
    (shown, if shown then placed - ScrollSpeed else placed)
  }

  /** The per-tick update keeps the moon on its schedule. */
  lemma MoonStepKeepsSchedule(visible: bool, y: real, t: nat)
    requires MoonAt(visible, y, t)
    ensures var r := MoonStep(visible, y, t + 1); MoonAt(r.0, r.1, t + 1)
  {
  }

  /** The rocket never rises above MaxY + BoostedKeyStep, so it can only touch the moon once
      the moon has come down to within the collision radius of that height: not before tick 2052. */
  lemma EarliestWin(rocket: Vec, t: nat)
    requires t >= MoonAppearTick && rocket.y <= MaxY + BoostedKeyStep
    requires Collides(rocket, Vec(MoonX, MoonY(t)))
    ensures t >= EarliestWinTick
  {
    var gap := MoonY(t) - rocket.y;
    assert gap * gap < CollisionRadius * CollisionRadius by {
      assert (rocket.x - MoonX) * (rocket.x - MoonX) >= 0.0;
      assert (rocket.y - MoonY(t)) * (rocket.y - MoonY(t)) == gap * gap;
    }
    BelowWhenSquareBelow(gap, CollisionRadius);
  }

  /** For a non-negative bound r, g * g < r * r forces g < r. */
  lemma BelowWhenSquareBelow(g: real, r: real)
    requires r >= 0.0 && g * g < r * r
    ensures g < r
  {
  }
}
