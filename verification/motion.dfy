/** How things move: the downward scroll with recycling, the rocket's keyboard steps,
    its drag-follow and the clamped drag target. */
module Motion {
  import opened Geometry
  import opened Entities

  /** Downward scroll of obstacles and power-ups per tick. */
  const ScrollSpeed: real := 0.05
  /** An obstacle or power-up that falls below this height is recycled to the top. */
  const RecycleBelow: real := -20.0

  /** Bounds of the rocket's movement and of the drag target. */
  const MinX: real := -15.0
  const MaxX: real := 15.0
  const MinY: real := -15.0
  const MaxY: real := 25.0

  /** Keyboard step per tick, and the step while the speed boost is active. */
  const KeyStep: real := 0.2
  const BoostedKeyStep: real := 0.4

  /** Fraction of the remaining distance to the drag target covered per tick. */
  const FollowFactor: real := 0.1

  /** The keyboard intents held during a tick. */
  datatype Keys = Keys(left: bool, right: bool, up: bool, down: bool, shoot: bool)

  /** Where obstacles and power-ups live: inside the lane, between the recycle line and the spawn height. */
  predicate InField(p: Vec) {
    -LaneWidth / 2.0 <= p.x < LaneWidth / 2.0 && RecycleBelow <= p.y <= SpawnHeight
  }

  /** One tick of scrolling for an obstacle or power-up at p, with r the draw used if it is recycled. */
  function Scrolled(p: Vec, r: real): (q: Vec)
    ensures q.y >= RecycleBelow
    ensures p.y - ScrollSpeed < RecycleBelow <==> q == Vec(SpawnX(r), SpawnHeight) && q != Vec(p.x, p.y - ScrollSpeed)
    ensures p.y - ScrollSpeed >= RecycleBelow ==> q == Vec(p.x, p.y - ScrollSpeed)
    ensures InField(p) && IsDraw(r) ==> InField(q)
  {
    var y := p.y - ScrollSpeed;
    if y < RecycleBelow then Vec(SpawnX(r), SpawnHeight) else Vec(p.x, y)
  }

  /** One keyboard intent on one axis: move by delta while the intent is held and the
      coordinate is still strictly inside the bound it moves towards. */
  function Nudge(v: real, held: bool, bound: real, delta: real): (w: real)
    ensures w == v || w == v + delta
    ensures delta != 0.0 ==> (w != v <==> held && if delta < 0.0 then v > bound else v < bound)
    ensures delta >= 0.0 && v <= bound + delta ==> w <= bound + delta
    ensures delta <= 0.0 && v >= bound + delta ==> w >= bound + delta
  {
    if held && (if delta < 0.0 then v > bound else v < bound) then v + delta else v
  }

  /** The keyboard step length. */
  function StepLength(boosted: bool): (s: real)
    ensures 0.0 < s <= BoostedKeyStep
  {
    if boosted then BoostedKeyStep else KeyStep
  }

  /** Where the rocket may be: within the movement bounds, or past one by at most one boosted step. */
  predicate InReach(p: Vec) {
    && MinX - BoostedKeyStep <= p.x <= MaxX + BoostedKeyStep
    && MinY - BoostedKeyStep <= p.y <= MaxY + BoostedKeyStep
  }

  /** Where the drag target may be. */
  predicate InTargetBox(t: Vec) {
    MinX <= t.x <= MaxX && MinY <= t.y <= MaxY
  }

  /** A keyboard tick: left, then right, then up, then down, each against its own bound. */
  function KeyboardMove(p: Vec, keys: Keys, boosted: bool): (q: Vec)
    ensures var s := StepLength(boosted);
      && (q.x == p.x - s || q.x == p.x || q.x == p.x + s)
      && (q.y == p.y - s || q.y == p.y || q.y == p.y + s)
    ensures !keys.left && !keys.right && !keys.up && !keys.down ==> q == p
    ensures InReach(p) ==> InReach(q)
  {
    var s := StepLength(boosted);
    var x := Nudge(Nudge(p.x, keys.left, MinX, -s), keys.right, MaxX, s);
    var y := Nudge(Nudge(p.y, keys.up, MaxY, s), keys.down, MinY, -s);
    Vec(x, y)
  }

  /** A drag-follow tick on one axis: cover a tenth of the remaining distance to t. */
  function Follow(v: real, t: real): (w: real)
    ensures t - w == (1.0 - FollowFactor) * (t - v)
    ensures v <= t ==> v <= w <= t
    ensures t <= v ==> t <= w <= v
  {
    v + (t - v) * FollowFactor
  }

  function DragMove(p: Vec, target: Vec): (q: Vec)
    ensures InReach(p) && InTargetBox(target) ==> InReach(q)
    ensures DistSq(q, target) == (1.0 - FollowFactor) * (1.0 - FollowFactor) * DistSq(p, target)
  {
    Vec(Follow(p.x, target.x), Follow(p.y, target.y))
  }

  /** `Math.max(lo, Math.min(hi, v))`. */
  function Clamp(v: real, lo: real, hi: real): (w: real)
    ensures lo <= hi ==> lo <= w <= hi
    ensures lo <= v <= hi ==> w == v
    ensures v < lo ==> w == lo
    ensures lo <= hi < v ==> w == hi
  {
    if hi < v then (if hi < lo then lo else hi) else if v < lo then lo else v
  }

  /** The drag target after the touch-move clamp. */
  function ClampTarget(t: Vec): (c: Vec)
    ensures InTargetBox(c)
    ensures InTargetBox(t) ==> c == t
  {
    Vec(Clamp(t.x, MinX, MaxX), Clamp(t.y, MinY, MaxY))
  }

  /** Converts a touch point, given as fractions (u, v) of the canvas's width and height
      measured from its top-left corner, into playfield coordinates. */
  function ScreenToPlayfield(u: real, v: real): (p: Vec)
    ensures 0.0 <= u <= 1.0 && 0.0 <= v <= 1.0 ==> -15.0 <= p.x <= 15.0 && -15.0 <= p.y <= 15.0
    ensures 0.0 <= u <= 1.0 && 0.0 <= v <= 1.0 ==> InTargetBox(p)
  {
    Vec(u * 30.0 - 15.0, -v * 30.0 + 15.0)
  }
}
