/** The records the game keeps in its three entity lists, and how a new one is made
    from the random draws the spawner takes. */
module Entities {
  import opened Geometry

  /** The three kinds of power-up, in the order the spawner's table lists them. */
  datatype PowerKind = Shield | Speed | Multiplier

  /** An asteroid. Its rotation speed only spins the mesh, and its movement speed is
      drawn and stored but never read by the game loop. */
  datatype Obstacle = Obstacle(pos: Vec, rotSpeed: real, moveSpeed: real)

  datatype PowerUp = PowerUp(pos: Vec, kind: PowerKind, rotSpeed: real)

  /** A laser beam, moving up by `speed` every tick. */
  datatype Laser = Laser(pos: Vec, speed: real)

  /** Height at which every obstacle and power-up enters the playfield. */
  const SpawnHeight: real := 30.0
  /** Width of the lane in which obstacles and power-ups enter. */
  const LaneWidth: real := 30.0
  const MaxObstacleRotSpeed: real := 0.02
  const MaxObstacleMoveSpeed: real := 0.05
  const PowerUpRotSpeed: real := 0.02
  const LaserSpeed: real := 0.5
  /** A laser starts this far above the rocket. */
  const LaserOffset: real := 1.0
  /** A laser that flies above this height is dropped. */
  const LaserCeiling: real := 30.0

  /** A value the random source can return: uniform in [0, 1). */
  predicate IsDraw(r: real) {
    0.0 <= r < 1.0
  }

  /** The draws an obstacle is made from (its size and initial spin are only drawn for the mesh). */
  datatype ObstacleDraw = ObstacleDraw(x: real, rotSpeed: real, moveSpeed: real)

  /** The draws a power-up is made from: first its kind, then its position. */
  datatype PowerUpDraw = PowerUpDraw(kind: real, x: real)

  predicate ValidObstacleDraw(d: ObstacleDraw) {
    IsDraw(d.x) && IsDraw(d.rotSpeed) && IsDraw(d.moveSpeed)
  }

  predicate ValidPowerUpDraw(d: PowerUpDraw) {
    IsDraw(d.kind) && IsDraw(d.x)
  }

  /** The horizontal entry point for a draw: uniform over the lane centred on x = 0. */
  function SpawnX(r: real): (x: real)
    ensures IsDraw(r) ==> -LaneWidth / 2.0 <= x < LaneWidth / 2.0
  {
    (r - 0.5) * LaneWidth
  }

  function NewObstacle(d: ObstacleDraw): (o: Obstacle)
    ensures o.pos.y == SpawnHeight && o.pos.x == SpawnX(d.x)
    ensures ValidObstacleDraw(d) ==>
      && -15.0 <= o.pos.x < 15.0
      && 0.0 <= o.rotSpeed < MaxObstacleRotSpeed
      && 0.0 <= o.moveSpeed < MaxObstacleMoveSpeed
  {
    Obstacle(Vec(SpawnX(d.x), SpawnHeight), d.rotSpeed * MaxObstacleRotSpeed, d.moveSpeed * MaxObstacleMoveSpeed)
  }

  /** The kind picked by indexing the three-entry table with floor(r * 3):
      each kind owns one third of the draw range. */
  function KindOf(r: real): (k: PowerKind)
    requires IsDraw(r)
    ensures k == Shield <==> r < 1.0 / 3.0
    ensures k == Speed <==> 1.0 / 3.0 <= r < 2.0 / 3.0
    ensures k == Multiplier <==> 2.0 / 3.0 <= r
  {
    var index := (r * 3.0).Floor;
    if index == 0 then Shield else if index == 1 then Speed else Multiplier
  }

  function NewPowerUp(d: PowerUpDraw): (p: PowerUp)
    requires IsDraw(d.kind)
    ensures p.pos.y == SpawnHeight && p.pos.x == SpawnX(d.x)
    ensures IsDraw(d.x) ==> -15.0 <= p.pos.x < 15.0
    ensures p.rotSpeed == PowerUpRotSpeed
    ensures d.kind < 1.0 / 3.0 ==> p.kind == Shield
    ensures 1.0 / 3.0 <= d.kind < 2.0 / 3.0 ==> p.kind == Speed
    ensures 2.0 / 3.0 <= d.kind ==> p.kind == Multiplier
  {
    PowerUp(Vec(SpawnX(d.x), SpawnHeight), KindOf(d.kind), PowerUpRotSpeed)
  }

  /** The laser fired from the rocket's position: in the rocket's column, just above it,
      at the laser speed. */
  function LaserFrom(rocket: Vec): (l: Laser)
    ensures l.pos.x == rocket.x && rocket.y < l.pos.y
    ensures l.speed == LaserSpeed
    ensures rocket.y <= LaserCeiling - LaserOffset ==> l.pos.y <= LaserCeiling
  {
    Laser(Vec(rocket.x, rocket.y + LaserOffset), LaserSpeed)
  }

  /** A laser after one tick of flight. */
  function Advanced(l: Laser): Laser {
    l.(pos := Vec(l.pos.x, l.pos.y + l.speed))
  }

  /** Where a laser was one tick earlier; undoes Advanced. */
  function Lowered(l: Laser): (m: Laser)
    ensures Advanced(m) == l
  {
    l.(pos := Vec(l.pos.x, l.pos.y - l.speed))
  }
}
