/** The game session: the state the game keeps between frames and the per-frame update
    that advances it, with the reset, spawning and touch/shoot-button entry points. */
module Simulation {
  import opened Geometry
  import opened Entities
  import opened Lists
  import opened Motion
  import opened Shooting
  import opened Buffs
  import opened Goal
  import opened Collisions
  import opened Scoring
  import opened LaserPass
  import opened Pickups

  /** Obstacles and power-ups created at start and on every reset. */
  const ObstacleCount: nat := 10
  const PowerUpCount: nat := 3
  const RocketStart: Vec := Vec(0.0, -15.0)

  /** os are the obstacles made, in order, from the draws ds. */
  ghost predicate ObstaclesFrom(os: seq<Obstacle>, ds: seq<ObstacleDraw>) {
    |os| == |ds| && forall i :: 0 <= i < |os| ==> os[i] == NewObstacle(ds[i])
  }

  /** ps are the power-ups made, in order, from the draws ds. */
  ghost predicate PowerUpsFrom(ps: seq<PowerUp>, ds: seq<PowerUpDraw>) {
    |ps| == |ds| && forall i :: 0 <= i < |ps| ==> ValidPowerUpDraw(ds[i]) && ps[i] == NewPowerUp(ds[i])
  }

  class Game {
    // Session.
    var score: nat
    var gameOver: bool
    var won: bool
    /** Elapsed game time, counted in ticks. */
    var ticks: nat
    // Shooting.
    var canShoot: bool
    var shootCooldown: int
    // Buffs.
    var hasShield: bool
    var hasSpeedBoost: bool
    var scoreMultiplier: nat
    var shieldTimer: int
    var speedBoostTimer: int
    var multiplierTimer: int
    // Craft and goal.
    var rocket: Vec
    var moonVisible: bool
    var moonY: real
    // Drag input.
    var targetX: real
    var targetY: real
    var isDragging: bool
    // Entity lists.
    var obstacles: seq<Obstacle>
    var powerUps: seq<PowerUp>
    var lasers: seq<Laser>
    /** Respawns scheduled by a delayed timer that has not fired yet. */
    var pendingObstacleSpawns: nat
    var pendingPowerUpSpawns: nat

    function CurrentGun(): Gun
      reads this`canShoot, this`shootCooldown
    {
      Gun(canShoot, shootCooldown)
    }

    function CurrentBuffs(): BuffState
      reads this`hasShield, this`shieldTimer, this`hasSpeedBoost, this`speedBoostTimer,
            this`scoreMultiplier, this`multiplierTimer
    {
      BuffState(hasShield, shieldTimer, hasSpeedBoost, speedBoostTimer, scoreMultiplier, multiplierTimer)
    }

    function Target(): Vec
      reads this`targetX, this`targetY
    {
      Vec(targetX, targetY)
    }

    /** The moon is on its schedule for the current tick. */
    ghost predicate MoonValid()
      reads this`moonVisible, this`moonY, this`ticks
    {
      MoonAt(moonVisible, moonY, ticks)
    }

    ghost predicate FieldValid()
      reads this`obstacles, this`powerUps
    {
      && (forall o :: o in obstacles ==> InField(o.pos))
      && (forall p :: p in powerUps ==> InField(p.pos))
    }

    ghost predicate LasersValid()
      reads this`lasers
    {
      LasersOk(lasers)
    }

    /** The invariant every entry point keeps. */
    ghost predicate Valid()
      reads this
    {
      && GunValid(CurrentGun())
      && WellFormed(CurrentBuffs())
      && InTargetBox(Target()) && InReach(rocket)
      && MoonValid()
      && (won ==> ticks >= EarliestWinTick)
      && FieldValid()
      && LasersValid()
    }

    /** The state at page load: the module-level initial values, then the initial
        obstacles and power-ups. */
    constructor (obstacleDraws: seq<ObstacleDraw>, powerUpDraws: seq<PowerUpDraw>)
      requires |obstacleDraws| == ObstacleCount && |powerUpDraws| == PowerUpCount
      requires forall i :: 0 <= i < |obstacleDraws| ==> ValidObstacleDraw(obstacleDraws[i])
      requires forall i :: 0 <= i < |powerUpDraws| ==> ValidPowerUpDraw(powerUpDraws[i])
      ensures Valid()
      ensures score == 0 && !gameOver && !won && ticks == 0
      ensures canShoot && shootCooldown == ShotCooldown
      ensures CurrentBuffs() == NoBuffs
      ensures rocket == RocketStart && !moonVisible && moonY == MoonHiddenY
      ensures Target() == RocketStart && !isDragging
      ensures lasers == [] && pendingObstacleSpawns == 0 && pendingPowerUpSpawns == 0
      ensures ObstaclesFrom(obstacles, obstacleDraws) && PowerUpsFrom(powerUps, powerUpDraws)
    {
      score, gameOver, won, ticks := 0, false, false, 0;
      canShoot, shootCooldown := true, ShotCooldown;
      hasShield, hasSpeedBoost, scoreMultiplier := false, false, 1;
      shieldTimer, speedBoostTimer, multiplierTimer := 0, 0, 0;
      rocket := RocketStart;
      moonVisible, moonY := false, MoonHiddenY;
      targetX, targetY, isDragging := 0.0, -15.0, false;
      obstacles, powerUps, lasers := [], [], [];
      pendingObstacleSpawns, pendingPowerUpSpawns := 0, 0;
      new;
      Populate(obstacleDraws, powerUpDraws);
    }

    /** createObstacle: appends a new obstacle. */
    method CreateObstacle(d: ObstacleDraw)
      modifies this`obstacles
      ensures obstacles == old(obstacles) + [NewObstacle(d)]
    {
      obstacles := obstacles + [NewObstacle(d)];
    }

    /** createPowerUp: appends a new power-up. */
    method CreatePowerUp(d: PowerUpDraw)
      requires IsDraw(d.kind)
      modifies this`powerUps
      ensures powerUps == old(powerUps) + [NewPowerUp(d)]
    {
      powerUps := powerUps + [NewPowerUp(d)];
    }

    /** createLaser: appends a laser just above the rocket. */
    method CreateLaser()
      modifies this`lasers
      ensures lasers == old(lasers) + [LaserFrom(rocket)]
    {
      lasers := lasers + [LaserFrom(rocket)];
    }

    /** Refills both lists with fresh entities, as at start and on reset. */
    method Populate(obstacleDraws: seq<ObstacleDraw>, powerUpDraws: seq<PowerUpDraw>)
      requires |obstacleDraws| == ObstacleCount && |powerUpDraws| == PowerUpCount
      requires forall i :: 0 <= i < |obstacleDraws| ==> ValidObstacleDraw(obstacleDraws[i])
      requires forall i :: 0 <= i < |powerUpDraws| ==> ValidPowerUpDraw(powerUpDraws[i])
      modifies this`obstacles, this`powerUps
      ensures ObstaclesFrom(obstacles, obstacleDraws) && PowerUpsFrom(powerUps, powerUpDraws)
      ensures FieldValid()
      ensures forall o :: o in obstacles ==> o.pos.y == SpawnHeight
      ensures forall p :: p in powerUps ==> p.pos.y == SpawnHeight
    {
      obstacles := [];
      for i := 0 to ObstacleCount
        invariant |obstacles| == i
        invariant forall j :: 0 <= j < i ==> obstacles[j] == NewObstacle(obstacleDraws[j])
      {
        CreateObstacle(obstacleDraws[i]);
      }
      powerUps := [];
      for i := 0 to PowerUpCount
        invariant ObstaclesFrom(obstacles, obstacleDraws)
        invariant |powerUps| == i
        invariant forall j :: 0 <= j < i ==> powerUps[j] == NewPowerUp(powerUpDraws[j])
      {
        CreatePowerUp(powerUpDraws[i]);
      }
      FreshEntitiesInField(obstacleDraws, powerUpDraws);
    }

    /** Entities made from valid draws enter the playfield at the top of the lane. */
    lemma FreshEntitiesInField(obstacleDraws: seq<ObstacleDraw>, powerUpDraws: seq<PowerUpDraw>)
      requires forall i :: 0 <= i < |obstacleDraws| ==> ValidObstacleDraw(obstacleDraws[i])
      requires ObstaclesFrom(obstacles, obstacleDraws) && PowerUpsFrom(powerUps, powerUpDraws)
      ensures FieldValid()
      ensures forall o :: o in obstacles ==> o.pos.y == SpawnHeight
      ensures forall p :: p in powerUps ==> p.pos.y == SpawnHeight
    {
    }

    /** resetGame, up to its final call of the frame update (which the caller performs as a Tick):
        the session, buffs flags, rocket, moon, lasers and gun are set back and both lists are
        refilled. The buff timers, the drag state and the pending respawns are left as they are:
        they are outside the method's frame. */
    method Reset(obstacleDraws: seq<ObstacleDraw>, powerUpDraws: seq<PowerUpDraw>)
      requires Valid()
      requires |obstacleDraws| == ObstacleCount && |powerUpDraws| == PowerUpCount
      requires forall i :: 0 <= i < |obstacleDraws| ==> ValidObstacleDraw(obstacleDraws[i])
      requires forall i :: 0 <= i < |powerUpDraws| ==> ValidPowerUpDraw(powerUpDraws[i])
      modifies this`gameOver, this`won, this`score, this`ticks, this`hasShield, this`hasSpeedBoost,
               this`scoreMultiplier, this`rocket, this`moonVisible, this`moonY, this`lasers,
               this`canShoot, this`shootCooldown, this`obstacles, this`powerUps
      ensures Valid()
      ensures score == 0 && !gameOver && !won && ticks == 0
      ensures !hasShield && !hasSpeedBoost && scoreMultiplier == 1
      ensures rocket == RocketStart && !moonVisible && moonY == MoonHiddenY
      ensures lasers == [] && canShoot && shootCooldown == ShotCooldown
      ensures ObstaclesFrom(obstacles, obstacleDraws) && PowerUpsFrom(powerUps, powerUpDraws)
      ensures forall o :: o in obstacles ==> o.pos.y == SpawnHeight
      ensures forall p :: p in powerUps ==> p.pos.y == SpawnHeight
    {
      ResetSession();
      ResetCraft();
      Populate(obstacleDraws, powerUpDraws);
    }

    /** The session part of the reset: not over, not won, no score, time zero, buff flags off. */
    method ResetSession()
      modifies this`gameOver, this`won, this`score, this`ticks,
               this`hasShield, this`hasSpeedBoost, this`scoreMultiplier
      ensures score == 0 && !gameOver && !won && ticks == 0
      ensures !hasShield && !hasSpeedBoost && scoreMultiplier == 1
      ensures WellFormed(old(CurrentBuffs())) ==> WellFormed(CurrentBuffs())
    {
      gameOver, won, score, ticks := false, false, 0, 0;
      hasShield, hasSpeedBoost, scoreMultiplier := false, false, 1;
    }

    /** The craft part of the reset: rocket back at the start, moon hidden, no lasers, gun ready. */
    method ResetCraft()
      modifies this`rocket, this`moonVisible, this`moonY, this`lasers, this`canShoot, this`shootCooldown
      ensures rocket == RocketStart && !moonVisible && moonY == MoonHiddenY
      ensures lasers == [] && canShoot && shootCooldown == ShotCooldown
      ensures GunValid(CurrentGun()) && InReach(rocket) && LasersValid()
    {
      rocket := RocketStart;
      moonVisible, moonY := false, MoonHiddenY;
      lasers := [];
      canShoot, shootCooldown := true, ShotCooldown;
    }

    /** A delayed obstacle respawn firing: one pending respawn becomes a new obstacle.
        It fires whatever the phase, and also after a reset. */
    method RespawnObstacle(d: ObstacleDraw)
      requires Valid() && ValidObstacleDraw(d) && pendingObstacleSpawns > 0
      modifies this`obstacles, this`pendingObstacleSpawns
      ensures Valid()
      ensures obstacles == old(obstacles) + [NewObstacle(d)]
      ensures pendingObstacleSpawns == old(pendingObstacleSpawns) - 1
    {
      CreateObstacle(d);
      pendingObstacleSpawns := pendingObstacleSpawns - 1;
    }

    /** A delayed power-up respawn firing. */
    method RespawnPowerUp(d: PowerUpDraw)
      requires Valid() && ValidPowerUpDraw(d) && pendingPowerUpSpawns > 0
      modifies this`powerUps, this`pendingPowerUpSpawns
      ensures Valid()
      ensures powerUps == old(powerUps) + [NewPowerUp(d)]
      ensures pendingPowerUpSpawns == old(pendingPowerUpSpawns) - 1
    {
      CreatePowerUp(d);
      pendingPowerUpSpawns := pendingPowerUpSpawns - 1;
    }

    /** A touch starting on the canvas at fractions (u, v) of its width and height:
        dragging starts towards that point, without clamping. */
    method TouchStart(u: real, v: real)
      requires Valid()
      requires 0.0 <= u <= 1.0 && 0.0 <= v <= 1.0
      modifies this`targetX, this`targetY, this`isDragging
      ensures Valid()
      ensures isDragging && Target() == ScreenToPlayfield(u, v)
    {
      isDragging := true;
      targetX := u * 30.0 - 15.0;
      targetY := -v * 30.0 + 15.0;
    }

    /** A touch moving to (u, v), which may lie outside the canvas: while dragging, the target
        follows it, clamped to x in [-15, 15] and y in [-15, 25]. */
    method TouchMove(u: real, v: real)
      requires Valid()
      modifies this`targetX, this`targetY
      ensures Valid()
      ensures isDragging ==> Target() == ClampTarget(ScreenToPlayfield(u, v))
      ensures !isDragging ==> Target() == old(Target())
    {
      if isDragging {
        targetX := u * 30.0 - 15.0;
        targetY := -v * 30.0 + 15.0;
        targetX := Clamp(targetX, MinX, MaxX);
        targetY := Clamp(targetY, MinY, MaxY);
      }
    }

    method TouchEnd()
      requires Valid()
      modifies this`isDragging
      ensures Valid()
      ensures !isDragging
    {
      isDragging := false;
    }

    /** A tap on the shoot button: fires if the gun is ready, whatever the phase of the game.
        It does not touch the cooldown. */
    method TapShoot()
      requires Valid()
      modifies this`lasers, this`canShoot
      ensures Valid()
      ensures CurrentGun() == Pull(old(CurrentGun()), true)
      ensures !canShoot
      ensures lasers == old(lasers) + if old(canShoot) then [LaserFrom(rocket)] else []
    {
      if canShoot {
        CreateLaser();
        canShoot := false;
      }
    }

    /** One frame of the game loop. Once the game is won or lost nothing changes. The frame
        does not touch the drag state. */
    method Tick(keys: Keys, obstacleDraws: seq<real>, powerUpDraws: seq<real>)
      requires Valid()
      requires |obstacleDraws| == |obstacles| && |powerUpDraws| == |powerUps|
      requires forall i :: 0 <= i < |obstacleDraws| ==> IsDraw(obstacleDraws[i])
      requires forall i :: 0 <= i < |powerUpDraws| ==> IsDraw(powerUpDraws[i])
      modifies this`score, this`gameOver, this`won, this`ticks, this`canShoot, this`shootCooldown,
               this`hasShield, this`hasSpeedBoost, this`scoreMultiplier, this`shieldTimer,
               this`speedBoostTimer, this`multiplierTimer, this`rocket, this`moonVisible, this`moonY,
               this`obstacles, this`powerUps, this`lasers, this`pendingObstacleSpawns,
               this`pendingPowerUpSpawns
      ensures Valid()
      ensures old(gameOver || won) ==> unchanged(this)
      ensures !old(gameOver || won) ==> ticks == old(ticks) + 1
      ensures score >= old(score)
      ensures won && !old(won) ==> moonVisible && Collides(rocket, Vec(MoonX, moonY))
      ensures gameOver && !old(gameOver) ==> exists o :: o in obstacles && Collides(rocket, o.pos)
      ensures |powerUps| + pendingPowerUpSpawns == old(|powerUps| + pendingPowerUpSpawns)
      ensures |obstacles| + pendingObstacleSpawns <= old(|obstacles| + pendingObstacleSpawns)
    {
      if gameOver || won {
        return;
      }
      Advance(keys.shoot, obstacleDraws, powerUpDraws);
      Settle(keys);
    }

    /** Steps 1 to 4: the world scrolls, then the gun and the lasers act. */
    method Advance(shoot: bool, obstacleDraws: seq<real>, powerUpDraws: seq<real>)
      requires Valid()
      requires |obstacleDraws| == |obstacles| && |powerUpDraws| == |powerUps|
      requires forall i :: 0 <= i < |obstacleDraws| ==> IsDraw(obstacleDraws[i])
      requires forall i :: 0 <= i < |powerUpDraws| ==> IsDraw(powerUpDraws[i])
      modifies this`ticks, this`obstacles, this`powerUps, this`moonVisible, this`moonY,
               this`canShoot, this`shootCooldown, this`lasers, this`score, this`pendingObstacleSpawns
      ensures Valid()
      ensures ticks == old(ticks) + 1
      ensures score >= old(score)
      ensures |powerUps| == old(|powerUps|)
      ensures |obstacles| + pendingObstacleSpawns == old(|obstacles| + pendingObstacleSpawns)
    {
      ScrollWorld(obstacleDraws, powerUpDraws);
      ShootAndFly(shoot);
    }

    /** Steps 5 to 9: the rocket and the buffs, then the contacts. */
    method Settle(keys: Keys)
      requires InReach(rocket) && InTargetBox(Target()) && WellFormed(CurrentBuffs()) && MoonValid()
      requires (won ==> ticks >= EarliestWinTick) && FieldValid()
      modifies this`rocket, this`hasShield, this`shieldTimer, this`hasSpeedBoost, this`speedBoostTimer,
               this`scoreMultiplier, this`multiplierTimer, this`obstacles, this`score, this`gameOver,
               this`powerUps, this`pendingPowerUpSpawns, this`won
      ensures InReach(rocket) && WellFormed(CurrentBuffs()) && (won ==> ticks >= EarliestWinTick) && FieldValid()
      ensures score >= old(score)
      ensures won && !old(won) ==> moonVisible && Collides(rocket, Vec(MoonX, moonY))
      ensures gameOver && !old(gameOver) ==> exists o :: o in obstacles && Collides(rocket, o.pos)
      ensures |powerUps| + pendingPowerUpSpawns == old(|powerUps| + pendingPowerUpSpawns)
      ensures |obstacles| <= old(|obstacles|)
    {
      Steer(keys);
      ResolveContacts();
    }

    /** Steps 1 and 2: the clock advances, the field scrolls, the moon follows its schedule. */
    method ScrollWorld(obstacleDraws: seq<real>, powerUpDraws: seq<real>)
      requires FieldValid() && MoonValid()
      requires |obstacleDraws| == |obstacles| && |powerUpDraws| == |powerUps|
      requires forall i :: 0 <= i < |obstacleDraws| ==> IsDraw(obstacleDraws[i])
      requires forall i :: 0 <= i < |powerUpDraws| ==> IsDraw(powerUpDraws[i])
      modifies this`ticks, this`obstacles, this`powerUps, this`moonVisible, this`moonY
      ensures FieldValid() && MoonValid()
      ensures ticks == old(ticks) + 1
      ensures |obstacles| == |old(obstacles)| && |powerUps| == |old(powerUps)|
    {
      ticks := ticks + 1;
      ScrollObstacles(obstacleDraws);
      ScrollPowerUps(powerUpDraws);
      UpdateMoon();
    }

    /** Steps 3 and 4: the gun recharges and may fire, then the lasers fly and strike. */
    method ShootAndFly(shoot: bool)
      requires GunValid(CurrentGun()) && LasersValid() && InReach(rocket)
      modifies this`canShoot, this`shootCooldown, this`lasers, this`obstacles, this`score,
               this`pendingObstacleSpawns
      ensures GunValid(CurrentGun()) && LasersValid()
      ensures forall o :: o in obstacles ==> o in old(obstacles)
      ensures |obstacles| + pendingObstacleSpawns == old(|obstacles| + pendingObstacleSpawns)
      ensures score >= old(score)
    {
      UpdateShooting(shoot);
      UpdateLasers();
    }

    /** Steps 5 and 6: the rocket moves, the buff timers count down. */
    method Steer(keys: Keys)
      requires InReach(rocket) && InTargetBox(Target()) && WellFormed(CurrentBuffs())
      modifies this`rocket, this`hasShield, this`shieldTimer, this`hasSpeedBoost, this`speedBoostTimer,
               this`scoreMultiplier, this`multiplierTimer
      ensures InReach(rocket) && WellFormed(CurrentBuffs())
    {
      MoveRocket(keys);
      CountDownBuffs();
    }

    /** Steps 7 to 9: contacts of the rocket with obstacles, power-ups and the moon. */
    method ResolveContacts()
      requires WellFormed(CurrentBuffs()) && MoonValid() && InReach(rocket) && (won ==> ticks >= EarliestWinTick)
      modifies this`obstacles, this`score, this`gameOver, this`powerUps, this`hasShield, this`shieldTimer,
               this`hasSpeedBoost, this`speedBoostTimer, this`scoreMultiplier, this`multiplierTimer,
               this`pendingPowerUpSpawns, this`won
      ensures WellFormed(CurrentBuffs()) && (won ==> ticks >= EarliestWinTick)
      ensures won && !old(won) ==> moonVisible && Collides(rocket, Vec(MoonX, moonY))
      ensures gameOver && !old(gameOver) ==> exists o :: o in obstacles && Collides(rocket, o.pos)
      ensures forall o :: o in obstacles ==> o in old(obstacles)
      ensures forall p :: p in powerUps ==> p in old(powerUps)
      ensures |obstacles| <= |old(obstacles)|
      ensures |powerUps| + pendingPowerUpSpawns == old(|powerUps| + pendingPowerUpSpawns)
      ensures score >= old(score)
    {
      ResolveObstacleHits();
      ResolvePowerUpPickups();
      CheckWin();
    }

    /** Step 1a: every obstacle scrolls down; one that falls below the recycle line goes
        back to the top at a newly drawn x, keeping its other fields. */
    method ScrollObstacles(draws: seq<real>)
      requires |draws| == |obstacles|
      requires forall i :: 0 <= i < |draws| ==> IsDraw(draws[i])
      requires forall o :: o in obstacles ==> InField(o.pos)
      modifies this`obstacles
      ensures |obstacles| == |old(obstacles)|
      ensures forall i :: 0 <= i < |obstacles| ==>
        obstacles[i] == old(obstacles)[i].(pos := Scrolled(old(obstacles)[i].pos, draws[i]))
      ensures forall o :: o in obstacles ==> InField(o.pos)
    {
      var i := 0;
      while i < |obstacles|
        invariant 0 <= i <= |obstacles| == |old(obstacles)|
        invariant forall j :: 0 <= j < i ==>
          obstacles[j] == old(obstacles)[j].(pos := Scrolled(old(obstacles)[j].pos, draws[j]))
        invariant forall j :: i <= j < |obstacles| ==> obstacles[j] == old(obstacles)[j]
      {
        var p := obstacles[i].pos;
        p := Vec(p.x, p.y - ScrollSpeed);
        if p.y < RecycleBelow {
          p := Vec(SpawnX(draws[i]), SpawnHeight);
        }
        obstacles := obstacles[i := obstacles[i].(pos := p)];
        i := i + 1;
      }
      forall o | o in obstacles
        ensures InField(o.pos)
      {
        var j :| 0 <= j < |obstacles| && obstacles[j] == o;
        assert old(obstacles)[j] in old(obstacles);
      }
    }

    /** Step 1b: the same scroll for the power-ups. */
    method ScrollPowerUps(draws: seq<real>)
      requires |draws| == |powerUps|
      requires forall i :: 0 <= i < |draws| ==> IsDraw(draws[i])
      requires forall p :: p in powerUps ==> InField(p.pos)
      modifies this`powerUps
      ensures |powerUps| == |old(powerUps)|
      ensures forall i :: 0 <= i < |powerUps| ==>
        powerUps[i] == old(powerUps)[i].(pos := Scrolled(old(powerUps)[i].pos, draws[i]))
      ensures forall p :: p in powerUps ==> InField(p.pos)
    {
      var i := 0;
      while i < |powerUps|
        invariant 0 <= i <= |powerUps| == |old(powerUps)|
        invariant forall j :: 0 <= j < i ==>
          powerUps[j] == old(powerUps)[j].(pos := Scrolled(old(powerUps)[j].pos, draws[j]))
        invariant forall j :: i <= j < |powerUps| ==> powerUps[j] == old(powerUps)[j]
      {
        var p := powerUps[i].pos;
        p := Vec(p.x, p.y - ScrollSpeed);
        if p.y < RecycleBelow {
          p := Vec(SpawnX(draws[i]), SpawnHeight);
        }
        powerUps := powerUps[i := powerUps[i].(pos := p)];
        i := i + 1;
      }
      forall q | q in powerUps
        ensures InField(q.pos)
      {
        var j :| 0 <= j < |powerUps| && powerUps[j] == q;
        assert old(powerUps)[j] in old(powerUps);
      }
    }

    /** Step 2: the moon shows up at its entry height once the time has come, and a shown moon
        is lowered by the scroll speed (on the tick it shows up too). */
    method UpdateMoon()
      modifies this`moonVisible, this`moonY
      ensures (moonVisible, moonY) == MoonStep(old(moonVisible), old(moonY), ticks)
      ensures ticks >= 1 && MoonAt(old(moonVisible), old(moonY), ticks - 1) ==> MoonValid()
    {
      if ticks >= MoonAppearTick && !moonVisible {
        moonVisible := true;
        moonY := MoonEntryY;
      }
      if moonVisible {
        moonY := moonY - ScrollSpeed;
      }
      if ticks >= 1 && MoonAt(old(moonVisible), old(moonY), ticks - 1) {
        MoonStepKeepsSchedule(old(moonVisible), old(moonY), ticks - 1);
      }
    }

    /** Step 3: the cooldown runs, then a held shoot key fires if the gun is ready. */
    method UpdateShooting(shoot: bool)
      modifies this`canShoot, this`shootCooldown, this`lasers
      ensures CurrentGun() == Pull(Recharge(old(CurrentGun())), shoot)
      ensures lasers == old(lasers) + if Fires(Recharge(old(CurrentGun())), shoot) then [LaserFrom(rocket)] else []
      ensures GunValid(old(CurrentGun())) ==> GunValid(CurrentGun())
      ensures InReach(rocket) && old(LasersValid()) ==> LasersValid()
    {
      if !canShoot {
        shootCooldown := shootCooldown - 1;
        if shootCooldown <= 0 {
          canShoot := true;
          shootCooldown := ShotCooldown;
        }
      }
      if shoot && canShoot {
        CreateLaser();
        canShoot := false;
      }
    }

    /** Step 4: each laser flies up and is dropped above the ceiling; one still in the field
        is tested against every obstacle, and every obstacle it hits is spliced out, scores
        LaserKillPoints times the multiplier and schedules a respawn. Both walks are by index
        while entries are spliced out under them (see LaserPass). The pass runs on local
        copies of the lists, written back at its end. */
    method UpdateLasers()
      requires LasersValid()
      modifies this`lasers, this`obstacles, this`score, this`pendingObstacleSpawns
      ensures var r := Fly(Field(old(lasers), old(obstacles), 0));
        && lasers == r.lasers && obstacles == r.obstacles
        && pendingObstacleSpawns == old(pendingObstacleSpawns) + r.kills
        && score == old(score) + Awarded(LaserKillPoints * scoreMultiplier, r.kills)
      ensures LasersValid()
      ensures forall o :: o in obstacles ==> o in old(obstacles)
      ensures |obstacles| + pendingObstacleSpawns == old(|obstacles| + pendingObstacleSpawns)
    {
      var bounty := LaserKillPoints * scoreMultiplier;
      var start := Field(lasers, obstacles, 0);
      var cur, points, pending := start, score, pendingObstacleSpawns;
      for i := 0 to |start.lasers|
        invariant cur == Flying(start, i)
        invariant points == old(score) + Awarded(bounty, cur.kills)
      {
        if i < |cur.lasers| {
          var laser := Advanced(cur.lasers[i]);
          if laser.pos.y > LaserCeiling {
            cur := cur.(lasers := RemoveAt(cur.lasers, i));
          } else {
            cur := cur.(lasers := cur.lasers[i := laser]);
            cur, points := StrikeObstacles(cur, i, laser.pos, bounty, points);
          }
        }
      }
      FlyKeeps(start);
      lasers, obstacles, score, pendingObstacleSpawns := cur.lasers, cur.obstacles, points, pending + cur.kills;
    }

    /** Step 5: the rocket follows the drag target while dragging, and otherwise takes one
        keyboard step per held direction key. */
    method MoveRocket(keys: Keys)
      modifies this`rocket
      ensures rocket == if isDragging then DragMove(old(rocket), Target())
                        else KeyboardMove(old(rocket), keys, hasSpeedBoost)
      ensures InReach(old(rocket)) && InTargetBox(Target()) ==> InReach(rocket)
    {
      var x, y := rocket.x, rocket.y;
      if isDragging {
        x := x + (targetX - x) * FollowFactor;
        y := y + (targetY - y) * FollowFactor;
      } else {
        var step := if hasSpeedBoost then BoostedKeyStep else KeyStep;
        if keys.left && x > MinX {
          x := x - step;
        }
        if keys.right && x < MaxX {
          x := x + step;
        }
        if keys.up && y < MaxY {
          y := y + step;
        }
        if keys.down && y > MinY {
          y := y - step;
        }
      }
      rocket := Vec(x, y);
    }

    /** Step 6: the buff timers count down. */
    method CountDownBuffs()
      modifies this`hasShield, this`shieldTimer, this`hasSpeedBoost, this`speedBoostTimer,
               this`scoreMultiplier, this`multiplierTimer
      ensures CurrentBuffs() == Expire(old(CurrentBuffs()))
      ensures WellFormed(old(CurrentBuffs())) ==> WellFormed(CurrentBuffs())
    {
      if hasShield {
        shieldTimer := shieldTimer - 1;
        if shieldTimer <= 0 {
          hasShield := false;
        }
      }
      if hasSpeedBoost {
        speedBoostTimer := speedBoostTimer - 1;
        if speedBoostTimer <= 0 {
          hasSpeedBoost := false;
        }
      }
      if scoreMultiplier > 1 {
        multiplierTimer := multiplierTimer - 1;
        if multiplierTimer <= 0 {
          scoreMultiplier := 1;
        }
      }
    }

    /** Step 7: under a shield every obstacle touching the rocket is filtered out of the list
        and scores RamPoints times the multiplier (no respawn); without a shield any such
        obstacle ends the game. The pass walks a snapshot of the list; the shield cannot
        change during it, so the two cases are separate passes here. */
    method ResolveObstacleHits()
      modifies this`obstacles, this`score, this`gameOver
      ensures hasShield ==> gameOver == old(gameOver)
      ensures !hasShield ==>
        && obstacles == old(obstacles) && score == old(score)
        && (gameOver <==> old(gameOver) || exists o :: o in obstacles && Collides(rocket, o.pos))
      ensures forall o :: o in obstacles ==> o in old(obstacles)
      ensures |obstacles| <= |old(obstacles)| && score >= old(score)
    {
      if hasShield {
        RamObstacles();
      } else {
        DetectCrash();
      }
    }

    /** The shielded pass: each obstacle of the snapshot that touches the rocket is filtered
        out of the list and scored. */
    method RamObstacles()
      modifies this`obstacles, this`score
      ensures obstacles == Unhit(old(obstacles), rocket)
      ensures score == old(score) + Awarded(RamPoints * scoreMultiplier, HitCount(old(obstacles), rocket))
    {
      var bounty := RamPoints * scoreMultiplier;
      var snapshot, remaining, points := obstacles, obstacles, score;
      ghost var hits: nat := 0;
      var k := 0;
      while k < |snapshot|
        invariant 0 <= k <= |snapshot|
        invariant remaining == RamSweep(snapshot, k, rocket)
        invariant hits == HitsBefore(snapshot, k, rocket)
        invariant points == old(score) + Awarded(bounty, hits)
      {
        var o := snapshot[k];
        if Collides(rocket, o.pos) {
          remaining := RemoveAll(remaining, o);
          points := points + bounty;
          hits := hits + 1;
        }
        k := k + 1;
      }
      RamSweepComplete(snapshot, rocket);
      assert remaining == Unhit(snapshot, rocket);
      assert points == old(score) + Awarded(bounty, HitCount(snapshot, rocket));
      obstacles, score := remaining, points;
    }

    /** The unshielded pass: any obstacle of the list touching the rocket ends the game. */
    method DetectCrash()
      modifies this`gameOver
      ensures gameOver <==> old(gameOver) || exists o :: o in obstacles && Collides(rocket, o.pos)
    {
      var k := 0;
      while k < |obstacles|
        invariant 0 <= k <= |obstacles|
        invariant gameOver <==> old(gameOver) || exists j :: 0 <= j < k && Collides(rocket, obstacles[j].pos)
      {
        if Collides(rocket, obstacles[k].pos) {
          gameOver := true;
        }
        k := k + 1;
      }
    }

    /** Step 8: every power-up the pass reaches that touches the rocket switches its buff on
        with a full timer, is spliced out and schedules a respawn. The walk is by index while
        entries are spliced out under it (see Pickups). It runs on a local copy of the list,
        written back at its end. */
    method ResolvePowerUpPickups()
      modifies this`powerUps, this`hasShield, this`shieldTimer, this`hasSpeedBoost, this`speedBoostTimer,
               this`scoreMultiplier, this`multiplierTimer, this`pendingPowerUpSpawns
      ensures var h := Pickup(old(powerUps), rocket);
        && powerUps == h.remaining
        && CurrentBuffs() == Absorb(old(CurrentBuffs()), h.collected)
        && pendingPowerUpSpawns == old(pendingPowerUpSpawns) + |h.collected|
      ensures WellFormed(old(CurrentBuffs())) ==> WellFormed(CurrentBuffs())
      ensures forall p :: p in powerUps ==> p in old(powerUps)
      ensures |powerUps| + pendingPowerUpSpawns == old(|powerUps| + pendingPowerUpSpawns)
    {
      var start, pending := powerUps, pendingPowerUpSpawns;
      var remaining := start;
      ghost var collected: seq<PowerUp> := [];
      for k := 0 to |start|
        invariant Haul(remaining, collected) == Picking(start, rocket, k)
        invariant CurrentBuffs() == Absorb(old(CurrentBuffs()), collected)
        invariant pending == old(pendingPowerUpSpawns) + |collected|
      {
        if k < |remaining| {
          var p := remaining[k];
          if Collides(rocket, p.pos) {
            ApplyPowerUp(p.kind);
            assert (collected + [p])[..|collected|] == collected;
            collected := collected + [p];
            remaining := RemoveAt(remaining, k);
            pending := pending + 1;
          }
        }
      }
      PickingKeeps(start, rocket, |start|);
      PickingSorts(start, rocket, |start|);
      powerUps, pendingPowerUpSpawns := remaining, pending;
    }

    /** The effect of picking up one power-up of kind k: its flag on and its timer full
        (for the multiplier: the multiplier raised). */
    method ApplyPowerUp(k: PowerKind)
      modifies this`hasShield, this`shieldTimer, this`hasSpeedBoost, this`speedBoostTimer,
               this`scoreMultiplier, this`multiplierTimer
      ensures CurrentBuffs() == Collect(old(CurrentBuffs()), k)
    {
      match k {
        case Shield =>
          hasShield := true;
          shieldTimer := BuffDuration;
        case Speed =>
          hasSpeedBoost := true;
          speedBoostTimer := BuffDuration;
        case Multiplier =>
          scoreMultiplier := BoostedMultiplier;
          multiplierTimer := BuffDuration;
      }
    }

    /** Step 9: touching the shown moon wins the game. */
    method CheckWin()
      requires MoonValid() && InReach(rocket) && (won ==> ticks >= EarliestWinTick)
      modifies this`won
      ensures won == (old(won) || (moonVisible && Collides(rocket, Vec(MoonX, moonY))))
      ensures won ==> ticks >= EarliestWinTick
    {
      if moonVisible && Collides(rocket, Vec(MoonX, moonY)) {
        EarliestWin(rocket, ticks);
        won := true;
      }
    }
  }
}
