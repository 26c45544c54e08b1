/** The shot rate limiter: a readiness flag and a cooldown counted down while not ready. */
module Shooting {

  /** Ticks between two shots while the trigger is held. */
  const ShotCooldown: int := 20

  /** The gun state: `canShoot` and `shootCooldown` of the game. */
  datatype Gun = Gun(canShoot: bool, cooldown: int)

  /** The cooldown stays in 1..20, and a ready gun has a full cooldown. */
  predicate GunValid(g: Gun) {
    1 <= g.cooldown <= ShotCooldown && (g.canShoot ==> g.cooldown == ShotCooldown)
  }

  /** The gun right after a shot. */
  const JustFired: Gun := Gun(false, ShotCooldown)

  /** The per-tick cooldown step: a gun that is not ready counts down, and becomes ready
      (with its cooldown restored to full) once the count reaches zero. */
  function Recharge(g: Gun): (h: Gun)
    ensures GunValid(g) ==> GunValid(h)
    ensures g.canShoot ==> h == g
    ensures GunValid(g) && !g.canShoot ==> (h.canShoot <==> g.cooldown == 1)
    ensures !g.canShoot && !h.canShoot ==> h.cooldown == g.cooldown - 1
  {
    if g.canShoot then g
    else
      var c := g.cooldown - 1;
      if c <= 0 then Gun(true, ShotCooldown) else Gun(false, c)
  }

  /** Whether pulling the trigger on gun g fires. */
  predicate Fires(g: Gun, trigger: bool) {
    trigger && g.canShoot
  }

  /** The gun after the trigger is (or is not) pulled: firing clears readiness and
      leaves the cooldown alone. */
  function Pull(g: Gun, trigger: bool): (h: Gun)
    ensures GunValid(g) ==> GunValid(h)
    ensures GunValid(g) && Fires(g, trigger) ==> h == JustFired
    ensures !Fires(g, trigger) ==> h == g
  {
    if Fires(g, trigger) then g.(canShoot := false) else g
  }

  /** The gun after n ticks of recharging. */
  function RechargeTimes(g: Gun, n: nat): Gun {
    if n == 0 then g else Recharge(RechargeTimes(g, n - 1))
  }

  /** After a shot the gun stays unready for 19 ticks and is ready on the 20th: with the
      trigger held, shots are exactly ShotCooldown ticks apart. */
  lemma {:induction false} ShotSpacing(n: nat)
    requires 1 <= n <= ShotCooldown
    ensures RechargeTimes(JustFired, n).canShoot <==> n == ShotCooldown
    ensures n < ShotCooldown ==> RechargeTimes(JustFired, n).cooldown == ShotCooldown - n
  {
    if n > 1 {
      ShotSpacing(n - 1);
    }
  }
}
