# Asteroid Blast: the frame simulation in Dafny

Asteroid Blast is a browser arcade game written in `game.js`. A rocket flies up a scrolling
lane of asteroids (obstacles) and power-ups. It shoots lasers, collects timed buffs (shield,
speed boost, score multiplier) and wins by touching the moon, which shows up after thirty
seconds. Touching an asteroid without a shield ends the game.

This project models the state the game keeps between frames and everything that changes it:
- the per-frame update `animate`;
- `resetGame`;
- the entity constructors `createObstacle`, `createPowerUp` and `createLaser`;
- the touch handlers and the shoot button;
- the collision test `checkCollision`.

The model is the class `Simulation.Game`. Its fields are the game's module-level variables.
Its methods change them step by step, the way the source does. Each step is proved against a
pure specification in a module of its own.

| module | what it holds |
|---|---|
| `Geometry` | playfield positions and the collision test |
| `Entities` | obstacle, power-up and laser records; how they are made from random draws |
| `Lists` | `splice(i, 1)` and `filter` on the entity lists |
| `Motion` | scrolling and recycling; keyboard steps, drag-follow and the clamped drag target |
| `Shooting` | the shot cooldown |
| `Buffs` | the three timed buffs |
| `Goal` | the moon's schedule, and the earliest tick a win can happen |
| `Collisions` | rocket against obstacles, with and without a shield |
| `LaserPass` | the laser pass of a frame, as a function on values |
| `Pickups` | the power-up pass of a frame, as a function on values |
| `Scoring` | points per kill |
| `Simulation` | the class `Game`: fields, entry points and the frame update |

`Game.Valid()` is the invariant every entry point keeps:
- the gun's cooldown lies in 1..20;
- the buffs are well formed: the multiplier is 1 or 2, and the timers lie in 0..300 and are positive while their buff is on;
- the drag target lies in its box and the rocket within one boosted step of its bounds;
- the moon is on its schedule;
- a win has not happened before tick 2052;
- every obstacle and power-up is in the lane;
- every laser is below the ceiling and flies at the laser speed.

The frame update (`Tick`) runs the steps in the source's order:
1. scroll and recycle;
2. the moon;
3. the shot cooldown and keyboard shot;
4. the laser pass;
5. rocket movement;
6. the buff countdown;
7. rocket against obstacles;
8. rocket against power-ups;
9. the win check.

Modelling decisions:
- **Random draws.** Every `Math.random()` value is a parameter in [0, 1).
- **Time.** Game time is counted in ticks: `gameTime >= 30` becomes `ticks >= 1800`.
- **Delayed respawns.** Each `setTimeout(create…, 3000)` is a pending-respawn counter. The callback firing is the method `RespawnObstacle` or `RespawnPowerUp`.
- **List passes.** The source walks its lists with `forEach` while splicing entries out of them. The model keeps that walk exactly. The index advances past a splice, and an index beyond the current length is not visited. So the entry that moves into a spliced slot is skipped in that frame, as in the source.

Where the game's design description and `game.js` disagree, the model follows `game.js`:
- `resetGame` does not clear the buff timers or the scheduled respawns. A respawn scheduled before a reset still adds its entity afterwards.
- A frame can set both `gameOver` and `won`: the rocket hits an asteroid, and later in the same frame touches the moon.
- Removal while iterating skips entries, as described above.
- A laser that hits an obstacle is spliced out, but the source goes on testing it against the
  remaining obstacles. So one laser can shoot down several obstacles in one frame, and every
  further hit splices out whichever laser then sits at its index (`LaserPass.StrikingLasers`).

## Model

| member | source | states |
|---|---|---|
| `Geometry.Collides` | game.js:289-292 | `checkCollision` itself: the squared distance is below 4. It has no contract of its own; `CollidesSymmetric` and `CollidesIffCloserThanRadius` state what it means |
| `Geometry.CollidesSymmetric` | game.js:289-292 | the collision test gives the same answer whichever object comes first |
| `Geometry.CollidesIffCloserThanRadius` | game.js:289-292 | comparing squared distances with 4 decides exactly `distance < 2` |
| `Entities.SpawnX` | game.js:129 | a draw in [0, 1) gives an entry x in [-15, 15) |
| `Entities.NewObstacle` | game.js:122-143 | a new obstacle enters at y = 30 with x from its draw; its spin lies in [0, 0.02) and its move speed in [0, 0.05) |
| `Entities.KindOf` | game.js:93-99 | `floor(r * 3)` picks shield, speed or multiplier, each for exactly one third of the draw range (all three iff cases) |
| `Entities.NewPowerUp` | game.js:92-119 | a new power-up enters at y = 30 in the lane, with spin 0.02 and the kind its draw picks |
| `Entities.Advanced` | game.js:452 | one tick of laser flight: up by its speed. It has no contract of its own; its inverse `Lowered` is proved to undo it |
| `Entities.LaserFrom` | game.js:157-163 | a new laser is in the rocket's column, above it, at speed 0.5, and below the ceiling when the rocket is at most 29 high |
| `Entities.Lowered` | game.js:452 | undoes one tick of laser flight: `Advanced(Lowered(l)) == l` |
| `Lists.RemoveAt` | game.js:457 | `splice(i, 1)` shortens the list by one, keeps the order of the rest, and is a no-op past the end |
| `Lists.RemoveAtMultiset` | game.js:560 | a splice takes exactly the spliced entry out of the multiset of entries |
| `Lists.RemoveAll` | game.js:525 | `filter` keeps exactly the entries other than v. The source compares meshes (`o.mesh !== obstacle.mesh`); the model compares obstacle records. Equal records sit at the same position, so they touch the rocket alike, and the shielded pass removes them alike |
| `Scoring.AwardedIsProduct` | game.js:471 | n awards of `points * multiplier`, added one at a time, come to their product |
| `Shooting.Recharge` | game.js:436-442 | the cooldown stays in 1..20; a waiting gun counts down and becomes ready exactly when the count was 1; a ready gun is unchanged |
| `Shooting.Pull` | game.js:445-448 | a held trigger on a ready gun fires and leaves the gun unready with a full cooldown; otherwise nothing changes |
| `Shooting.ShotSpacing` | game.js:436-448 | after a shot the gun is unready for 19 ticks and ready on the 20th |
| `Motion.Scrolled` | game.js:396-403 | an entity moves down by 0.05; it goes back to y = 30 at its drawn x exactly when it would fall below -20; the lane invariant is kept |
| `Motion.Nudge` | game.js:488-491 | one arrow key moves by one step iff it is held and the coordinate is strictly inside the bound it moves towards |
| `Motion.StepLength` | game.js:487 | the keyboard step is positive and at most the boosted step 0.4 |
| `Motion.KeyboardMove` | game.js:486-491 | each axis moves by at most one step; no key held means no move; the rocket stays within one boosted step of its bounds |
| `Motion.Follow` | game.js:483-484 | the remaining distance to the target shrinks to 9/10, without overshooting |
| `Motion.DragMove` | game.js:481-484 | the squared distance to the drag target shrinks by the factor 0.81; the rocket stays in reach when the target is in its box |
| `Motion.Clamp` | game.js:259-260 | `Math.max(lo, Math.min(hi, v))` lies in [lo, hi], is v inside it and the nearer bound outside |
| `Motion.ClampTarget` | game.js:259-260 | the clamped drag target lies in x in [-15, 15] and y in [-15, 25], and a target already inside is unchanged |
| `Motion.ScreenToPlayfield` | game.js:242-243 | a touch on the canvas maps into [-15, 15] on both axes |
| `Buffs.Collect` | game.js:542-556 | a pickup switches its buff on with the timer at 300, replacing what was left; the other buffs are untouched |
| `Buffs.Expire` | game.js:494-513 | every active timer drops by one and its buff goes off exactly when the timer reaches 0; inactive buffs are untouched; well-formedness is kept |
| `Buffs.BuffWearsOff` | game.js:494-513 | an active buff with t ticks left is still on after t - 1 countdowns and off after the t-th |
| `Buffs.BuffLastsDuration` | game.js:545 | a buff just picked up lasts exactly 300 ticks |
| `Buffs.Absorb` | game.js:540-556 | the pickups of one frame, applied in order, keep the buffs well formed |
| `Buffs.AbsorbActivates` | game.js:540-556 | every kind picked up in a frame ends it active with a full timer |
| `Buffs.AbsorbKeepsOthers` | game.js:540-556 | a kind not picked up in a frame keeps its flag and timer |
| `Goal.MoonY` | game.js:425-433 | the moon's height on its schedule is at most 39.95 |
| `Goal.MoonDescends` | game.js:431-433 | a shown moon comes down by the scroll speed every tick |
| `Goal.MoonStep` | game.js:425-433 | the moon is shown from the first tick its time has come, and a hidden moon does not move |
| `Goal.MoonStepKeepsSchedule` | game.js:425-433 | one moon update keeps the moon on its schedule: shown exactly from tick 1800, at 40 - 0.05 * (t - 1799) |
| `Goal.EarliestWin` | game.js:568-571 | the rocket can touch the moon no earlier than tick 2052 |
| `Collisions.HitCount` | game.js:521 | no obstacle touches the rocket iff the count of touching obstacles is 0 |
| `Collisions.Unhit` | game.js:521-526 | exactly the obstacles not touching the rocket are kept, and the hits make up the difference in length |
| `Collisions.UnhitAppend` | game.js:525 | the obstacles the shielded pass keeps stay in their order: `Unhit` of a concatenation is the concatenation of the `Unhit`s |
| `Collisions.SweptStep` | game.js:525 | filtering out one more touching obstacle is one more step of the shielded sweep |
| `Collisions.RamSweep` | game.js:516-526 | the list after the shielded pass has visited k snapshot entries. It has no contract of its own; `RamSweepIsSwept` and `RamSweepComplete` state what it leaves |
| `Collisions.RamSweepIsSwept` | game.js:516-526 | after k entries of the snapshot, the shielded pass has filtered out exactly the touching entries among them and counted them |
| `Collisions.RamSweepComplete` | game.js:516-526 | the whole shielded pass leaves exactly the obstacles not touching the rocket, and scores each touching one once |
| `LaserPass.StrikeStep` | game.js:463-468 | one obstacle index of the inner walk: a touching obstacle there is spliced out, with the laser's index, and counted as a kill. It has no contract of its own; `StrikeStepSpares` and `StrikingCounts` state what it does |
| `LaserPass.StrikeStepSpares` | game.js:463-468 | one step of the inner walk can only take out an obstacle the laser touches |
| `LaserPass.StrikingSpares` | game.js:462-477 | the inner walk keeps every copy of each obstacle the laser does not touch |
| `LaserPass.StrikingCounts` | game.js:462-477 | kills plus remaining obstacles are conserved; without a kill nothing changes; a kill shortens the laser list; obstacles are only removed |
| `LaserPass.StrikingLasers` | game.js:462-468 | the inner walk keeps the lasers before the current index and splices a run out from it |
| `LaserPass.FlyingCounts` | game.js:451-478 | over the whole laser walk, kills plus obstacles are conserved and both lists only shrink |
| `LaserPass.DropKeepsLasersFrom` | game.js:455-459 | dropping a laser above the ceiling keeps every remaining laser traceable to one before the pass |
| `LaserPass.StrikeKeepsLasersFrom` | game.js:452-468 | moving a laser up and running its obstacle walk keeps every remaining laser traceable to one before the pass |
| `LaserPass.FlyingLasers` | game.js:451-478 | every laser after the walk is one from before it, either untouched or moved up by its speed and still below the ceiling |
| `LaserPass.FlyStep` | game.js:451-478 | one laser index of the outer walk: the laser moves up, then is dropped above the ceiling or strikes. It has no contract of its own; `FlyingCounts`, `FlyingLasers` and `FlyingSpares` state what the walk does |
| `LaserPass.FlyingSpares` | game.js:451-478 | an obstacle that no laser touches once moved up keeps every copy, so every obstacle taken out was hit |
| `LaserPass.Fly` | game.js:451-478 | the whole laser pass on values. It has no contract of its own; `FlyKeeps` states what it promises |
| `LaserPass.FlyingWithoutLoss` | game.js:451-478 | a walk that loses no laser hits nothing and moves every visited laser up by its speed |
| `LaserPass.FlyKeeps` | game.js:451-478 | summary of the laser pass: counts conserved, lists only shrink, an obstacle no laser touches keeps every copy, lasers stay below the ceiling at laser speed, no loss means no hit and every laser moved up |
| `LaserPass.StrikeObstacles` | game.js:462-477 | the obstacle loop computes the inner walk, and adds 20 × multiplier to the score per kill |
| `Pickups.PickStep` | game.js:540-560 | one index of the power-up walk: a touching power-up there is spliced out and added to the haul. It has no contract of its own; `PickStepKeeps` states what it does |
| `Pickups.Pickup` | game.js:535-565 | the whole power-up walk on values. It has no contract of its own; `PickingKeeps` and `PickingSorts` state what it does |
| `Pickups.PickStepKeeps` | game.js:558-560 | one step of the power-up walk moves at most one power-up from the list to the haul |
| `Pickups.PickingKeeps` | game.js:535-565 | the list left by the walk plus the power-ups collected are a permutation of the list before it |
| `Pickups.PickingSorts` | game.js:535-565 | the walk only removes power-ups, and everything it collects touches the rocket |
| `Simulation.Game.constructor` | game.js:25-175 | the page-load state: zero score and time, gun ready, no buffs, rocket at (0, -15), moon hidden at 50, 10 obstacles and 3 power-ups from their draws; the invariant holds |
| `Simulation.Game.CreateObstacle` | game.js:122-143 | `createObstacle` appends the obstacle made from its draws |
| `Simulation.Game.CreatePowerUp` | game.js:92-119 | `createPowerUp` appends the power-up made from its draws |
| `Simulation.Game.CreateLaser` | game.js:146-165 | `createLaser` appends a laser one unit above the rocket, with speed 0.5 |
| `Simulation.Game.Populate` | game.js:354-366 | the lists become 10 obstacles and 3 power-ups made, in order, from the draws, all at the top of the lane |
| `Simulation.Game.FreshEntitiesInField` | game.js:128-131 | entities made from valid draws lie in the lane at y = 30 |
| `Simulation.Game.Reset` | game.js:325-366 | `resetGame`: score 0, not over, not won, time 0, buff flags off, multiplier 1, rocket at the start, moon hidden, no lasers, gun ready, both lists refilled; the invariant is kept |
| `Simulation.Game.ResetSession` | game.js:326-333 | the session and buff-flag part of the reset, keeping the buffs well formed |
| `Simulation.Game.ResetCraft` | game.js:335-352 | the rocket, moon, laser and gun part of the reset |
| `Simulation.Game.RespawnObstacle` | game.js:475 | a delayed obstacle respawn firing appends a new obstacle and uses up one pending respawn |
| `Simulation.Game.RespawnPowerUp` | game.js:563 | a delayed power-up respawn firing appends a new power-up and uses up one pending respawn |
| `Simulation.Game.TouchStart` | game.js:231-246 | a touch on the canvas starts dragging towards its point |
| `Simulation.Game.TouchMove` | game.js:248-263 | while dragging, the target follows the touch, clamped to its box; otherwise it is unchanged |
| `Simulation.Game.TouchEnd` | game.js:265-267 | lifting the finger ends dragging |
| `Simulation.Game.TapShoot` | game.js:277-283 | the shoot button fires iff the gun is ready, in any phase, and leaves the cooldown alone |
| `Simulation.Game.Tick` | game.js:388-576 | a frame keeps the invariant and freezes a finished game; otherwise time advances by one tick and the score never drops; a win means the rocket touches the shown moon; a loss means it touches an obstacle; power-ups plus pending respawns are conserved and obstacles plus pending respawns never grow |
| `Simulation.Game.Advance` | game.js:392-478 | steps 1 to 4 keep the invariant and advance time by one tick; obstacles plus pending respawns are conserved |
| `Simulation.Game.Settle` | game.js:480-571 | steps 5 to 9 keep their part of the invariant, never lower the score, and explain a new win or loss |
| `Simulation.Game.ScrollWorld` | game.js:392-433 | the clock and the scroll keep the lane invariant and the moon's schedule |
| `Simulation.Game.ShootAndFly` | game.js:435-478 | the gun and the laser pass keep the gun and laser invariants; obstacles plus pending respawns are conserved |
| `Simulation.Game.Steer` | game.js:480-513 | moving and counting down keep the rocket in reach and the buffs well formed |
| `Simulation.Game.ResolveContacts` | game.js:515-571 | the contacts keep the buffs well formed, only remove obstacles and power-ups, conserve power-ups plus pending respawns, and explain a new win or loss |
| `Simulation.Game.ScrollObstacles` | game.js:396-403 | every obstacle is scrolled, or recycled with its draw, keeping its other fields and the lane invariant |
| `Simulation.Game.ScrollPowerUps` | game.js:405-412 | the same for every power-up |
| `Simulation.Game.UpdateMoon` | game.js:424-433 | the moon update is `MoonStep`, and keeps the moon on its schedule |
| `Simulation.Game.UpdateShooting` | game.js:435-448 | the gun recharges then obeys the held trigger; a laser is added iff it fires |
| `Simulation.Game.UpdateLasers` | game.js:450-478 | the laser loop computes the laser pass: lists, one respawn per kill, 20 × multiplier points per kill; lasers stay valid, and obstacles plus respawns are conserved |
| `Simulation.Game.MoveRocket` | game.js:480-492 | the rocket follows the drag target while dragging, and otherwise takes the keyboard step; it stays in reach |
| `Simulation.Game.CountDownBuffs` | game.js:494-513 | the countdown is `Expire` on the buff state |
| `Simulation.Game.ResolveObstacleHits` | game.js:515-532 | with a shield the game does not end; without one, the list and score are unchanged and the game ends iff an obstacle touches the rocket; obstacles are only removed and the score never drops |
| `Simulation.Game.RamObstacles` | game.js:521-526 | the shielded pass keeps exactly the obstacles not touching the rocket and scores 10 × multiplier for each touching one |
| `Simulation.Game.DetectCrash` | game.js:527-530 | the game ends iff it had ended or some obstacle touches the rocket |
| `Simulation.Game.ResolvePowerUpPickups` | game.js:534-565 | the pickup loop computes the power-up walk; collected power-ups switch their buffs on in order and each schedules a respawn |
| `Simulation.Game.ApplyPowerUp` | game.js:542-556 | one pickup is `Collect` of its kind on the buff state |
| `Simulation.Game.CheckWin` | game.js:567-571 | the game is won iff it was won or the rocket touches the shown moon, and never before tick 2052 |

## Left out

- Rendering, the DOM, the HUD text and the victory and game-over overlays are not modelled. Neither are mesh sizes, colours, opacity, asteroid and power-up rotation, and the star field: none of them affects the state the game keeps.
- Event plumbing is left out: key listeners, the restart buttons and the R key, `requestAnimationFrame`, and window resizing. Keys are a `Tick` parameter.
- The trailing `animate()` call of `resetGame` is a `Tick` the caller performs after `Reset`.
- `touchStartX` and `touchStartY` are recorded by the source but never read, so they are not modelled.
- Floating point is left out: positions are exact reals. The time `gameTime += 1/60` is an exact tick count, so the accumulated rounding error is not modelled. That error could move the moon's appearance by a tick.
- Every entity sits at z = 0, so positions are two-dimensional.
- The obstacle size and its initial x and y rotation are drawn by the source, but only the mesh uses them, so they are not parameters.
- `Simulation.Game.Tick` takes one recycle draw per obstacle and per power-up. It uses a draw only when that entity recycles.
- `Simulation.Game.TouchStart` requires the touch to lie on the canvas (fractions in [0, 1]). Without this, the rocket-in-reach invariant would not hold. `TouchMove` has no such requirement, because it clamps.
- The asynchronous respawn timer is a counter of pending respawns. Its 3-second wall-clock delay is not modelled; `RespawnObstacle` and `RespawnPowerUp` may fire at any point.
- The loops in `UpdateLasers`, `RamObstacles` and `ResolvePowerUpPickups` run on local copies of the lists and score. They write back at the end. The source writes the shared variables inside the loop, and nothing else reads them meanwhile.
- `Simulation.Game.ResolveObstacleHits`: with a shield, its contract only says the game does not end, the list only shrinks and the score does not drop. The exact result is stated by `RamObstacles`, which it calls. The source's single loop tests the shield on every hit. The shield cannot change during the loop, so the model takes the branch once.
- `Simulation.Game.Tick`: states the invariant, the freeze and summary facts. It does not state the exact new state, which is the composition of the step methods' contracts.
- `Simulation.Game.Advance`: summary facts only. The exact effect of each step is in `ScrollObstacles`, `ScrollPowerUps`, `UpdateMoon`, `UpdateShooting` and `UpdateLasers`.
- `Simulation.Game.Settle`: summary facts only. The exact effect of each step is in `MoveRocket`, `CountDownBuffs`, `ResolveObstacleHits`, `ResolvePowerUpPickups` and `CheckWin`.
- `Simulation.Game.ScrollWorld`: the invariants only. The exact effect is in `ScrollObstacles`, `ScrollPowerUps` and `UpdateMoon`.
- `Simulation.Game.ShootAndFly`: the invariants and counts only. The exact effect is in `UpdateShooting` and `UpdateLasers`.
- `Simulation.Game.Steer`: the invariants only. The exact effect is in `MoveRocket` and `CountDownBuffs`.
- `Simulation.Game.ResolveContacts`: the invariants and the win and loss explanations only. The exact effect is in the three step methods.
- `Buffs.Absorb`: its own contract only keeps well-formedness. What it switches on is stated by `AbsorbActivates` and `AbsorbKeepsOthers`.
