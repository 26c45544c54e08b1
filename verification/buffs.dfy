/** The three timed buffs picked up from power-ups: shield, speed boost and score multiplier. */
module Buffs {
  import opened Entities

  /** Ticks a buff lasts after a pickup (5 seconds at 60 ticks per second). */
  const BuffDuration: int := 300
  /** The score multiplier while the multiplier buff is on. */
  const BoostedMultiplier: nat := 2

  /** The buff variables of the game: two flags, the multiplier, and one timer each. */
  datatype BuffState = BuffState(
    hasShield: bool, shieldTimer: int,
    hasSpeedBoost: bool, speedBoostTimer: int,
    scoreMultiplier: nat, multiplierTimer: int)

  /** Whether the buff of kind k is on; the multiplier buff is on while the multiplier exceeds 1. */
  predicate Active(b: BuffState, k: PowerKind) {
    match k
    case Shield => b.hasShield
    case Speed => b.hasSpeedBoost
    case Multiplier => b.scoreMultiplier > 1
  }

  function TimerOf(b: BuffState, k: PowerKind): int {
    match k
    case Shield => b.shieldTimer
    case Speed => b.speedBoostTimer
    case Multiplier => b.multiplierTimer
  }

  /** A timer lies in 0..BuffDuration and is positive while its buff is on. */
  predicate TimerFits(b: BuffState, k: PowerKind) {
    0 <= TimerOf(b, k) <= BuffDuration && (Active(b, k) ==> 1 <= TimerOf(b, k))
  }

  /** The multiplier is 1 or 2, and every timer fits. */
  predicate WellFormed(b: BuffState) {
    && (b.scoreMultiplier == 1 || b.scoreMultiplier == BoostedMultiplier)
    && TimerFits(b, Shield) && TimerFits(b, Speed) && TimerFits(b, Multiplier)
  }

  /** The buffs as the game starts them. */
  const NoBuffs: BuffState := BuffState(false, 0, false, 0, 1, 0)

  /** Picking up a power-up of kind k: its buff is switched on with a full timer,
      replacing (not adding to) what was left; the other buffs are untouched. */
  function Collect(b: BuffState, k: PowerKind): (c: BuffState)
    ensures Active(c, k) && TimerOf(c, k) == BuffDuration
    ensures forall j :: j != k ==> Active(c, j) == Active(b, j) && TimerOf(c, j) == TimerOf(b, j)
    ensures c.scoreMultiplier == if k == Multiplier then BoostedMultiplier else b.scoreMultiplier
    ensures WellFormed(b) ==> WellFormed(c)
  {
    match k
    case Shield => b.(hasShield := true, shieldTimer := BuffDuration)
    case Speed => b.(hasSpeedBoost := true, speedBoostTimer := BuffDuration)
    case Multiplier => b.(scoreMultiplier := BoostedMultiplier, multiplierTimer := BuffDuration)
  }

  /** The per-tick countdown: the timer of every active buff drops by one, and a buff whose
      timer reaches zero is switched off (the multiplier falls back to 1). */
  function Expire(b: BuffState): (c: BuffState)
    ensures WellFormed(b) ==> WellFormed(c)
    ensures forall k :: Active(b, k) ==> TimerOf(c, k) == TimerOf(b, k) - 1 && (Active(c, k) <==> TimerOf(b, k) > 1)
    ensures forall k :: !Active(b, k) ==> TimerOf(c, k) == TimerOf(b, k) && !Active(c, k)
    ensures c.scoreMultiplier == 1 || c.scoreMultiplier == b.scoreMultiplier
  {
    var shield := if b.hasShield then b.shieldTimer - 1 else b.shieldTimer;
    var speed := if b.hasSpeedBoost then b.speedBoostTimer - 1 else b.speedBoostTimer;
    var mult := if b.scoreMultiplier > 1 then b.multiplierTimer - 1 else b.multiplierTimer;
    BuffState(
      b.hasShield && shield > 0, shield,
      b.hasSpeedBoost && speed > 0, speed,
      if b.scoreMultiplier > 1 && mult <= 0 then 1 else b.scoreMultiplier, mult)
  }

  /** The buffs after n ticks of countdown without pickups. */
  function ExpireTimes(b: BuffState, n: nat): BuffState {
    if n == 0 then b else Expire(ExpireTimes(b, n - 1))
  }

  /** An active buff with t ticks left stays on for t - 1 more countdowns and goes off at the t-th. */
  lemma {:induction false} BuffWearsOff(b: BuffState, k: PowerKind, n: nat)
    requires WellFormed(b) && Active(b, k) && n <= TimerOf(b, k)
    ensures WellFormed(ExpireTimes(b, n))
    ensures n < TimerOf(b, k) ==> Active(ExpireTimes(b, n), k) && TimerOf(ExpireTimes(b, n), k) == TimerOf(b, k) - n
    ensures n == TimerOf(b, k) ==> !Active(ExpireTimes(b, n), k)
  {
    if n > 0 {
      BuffWearsOff(b, k, n - 1);
    }
  }

  /** A buff just picked up lasts exactly BuffDuration ticks: it is still on after 299 countdowns
      and off after the 300th. */
  lemma BuffLastsDuration(b: BuffState, k: PowerKind, n: nat)
    requires WellFormed(b) && 1 <= n <= BuffDuration
    ensures Active(ExpireTimes(Collect(b, k), n), k) <==> n < BuffDuration
  {
    BuffWearsOff(Collect(b, k), k, n);
  }

  /** Several pickups in one tick, applied in order. */
  function Absorb(b: BuffState, ps: seq<PowerUp>): (c: BuffState)
    ensures WellFormed(b) ==> WellFormed(c)
  {
    if ps == [] then b else Collect(Absorb(b, ps[..|ps| - 1]), ps[|ps| - 1].kind)
  }

  /** Every kind picked up in a tick ends the tick on, with a full timer. */
  lemma {:induction false} AbsorbActivates(b: BuffState, ps: seq<PowerUp>, p: PowerUp)
    requires p in ps
    ensures Active(Absorb(b, ps), p.kind) && TimerOf(Absorb(b, ps), p.kind) == BuffDuration
  {
    var last := ps[|ps| - 1];
    if last.kind != p.kind {
      assert p in ps[..|ps| - 1] by {
        var i :| 0 <= i < |ps| && ps[i] == p;
        assert i < |ps| - 1;
        assert ps[..|ps| - 1][i] == p;
      }
      AbsorbActivates(b, ps[..|ps| - 1], p);
    }
  }

  /** A kind not picked up in a tick keeps its flag and timer. */
  lemma {:induction false} AbsorbKeepsOthers(b: BuffState, ps: seq<PowerUp>, k: PowerKind)
    requires forall p :: p in ps ==> p.kind != k
    ensures Active(Absorb(b, ps), k) == Active(b, k) && TimerOf(Absorb(b, ps), k) == TimerOf(b, k)
  {
    if ps != [] {
      assert forall p :: p in ps[..|ps| - 1] ==> p in ps;
      AbsorbKeepsOthers(b, ps[..|ps| - 1], k);
    }
  }
}
