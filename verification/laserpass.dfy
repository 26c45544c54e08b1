/** The laser pass of a frame (step 4) as a computation on values. The game walks the
    laser list by index; each laser flies up, is dropped above the ceiling, or is tested
    against every obstacle, walking the obstacle list by index as well. Every hit splices
    the obstacle out and splices the entry at the laser's index out of the laser list.
    Both walks keep going by index while entries are spliced out under them, so the entry
    that moves into a spliced slot is not visited in this frame. */
module LaserPass {
  import opened Geometry
  import opened Entities
  import opened Lists
  import opened Scoring

  /** What the laser pass works on: both lists, and the obstacles shot down so far. */
  datatype Field = Field(lasers: seq<Laser>, obstacles: seq<Obstacle>, kills: nat)

  /** Every laser is below the ceiling and flies at the laser speed. */
  predicate LasersOk(s: seq<Laser>) {
    forall l :: l in s ==> l.pos.y <= LaserCeiling && l.speed == LaserSpeed
  }

  /** A laser present after the laser pass was present before it, either untouched or
      moved up by its speed and still below the ceiling. */
  ghost predicate Descends(l: Laser, before: seq<Laser>) {
    l in before || (l.pos.y <= LaserCeiling && Lowered(l) in before)
  }

  /** The inner walk at obstacle index j, for the laser at index i located at `at`. */
  function StrikeStep(f: Field, i: nat, at: Vec, j: nat): Field {
    if j < |f.obstacles| && Collides(at, f.obstacles[j].pos) then
      Field(RemoveAt(f.lasers, i), RemoveAt(f.obstacles, j), f.kills + 1)
    else f
  }

  /** The inner walk after obstacle indices 0 .. j-1. */
  function Striking(f: Field, i: nat, at: Vec, j: nat): Field {
    if j == 0 then f else StrikeStep(Striking(f, i, at, j - 1), i, at, j - 1)
  }

  /** The whole inner walk, over as many indices as there were obstacles when it began. */
  function Strike(f: Field, i: nat, at: Vec): Field {
    Striking(f, i, at, |f.obstacles|)
  }

  /** The outer walk at laser index i. */
  function FlyStep(f: Field, i: nat): Field {
    if i < |f.lasers| then
      var l := Advanced(f.lasers[i]);
      if l.pos.y > LaserCeiling then f.(lasers := RemoveAt(f.lasers, i))
      else Strike(f.(lasers := f.lasers[i := l]), i, l.pos)
    else f
  }

  /** The outer walk after laser indices 0 .. i-1. */
  function Flying(f: Field, i: nat): Field {
    if i == 0 then f else FlyStep(Flying(f, i - 1), i - 1)
  }

  /** The whole laser pass, over as many indices as there were lasers when it began. */
  function Fly(f: Field): Field {
    Flying(f, |f.lasers|)
  }

  /** The inner walk keeps count: every kill takes one obstacle out, and obstacles are only
      taken out. Without a kill nothing changes; with one, the laser list is shorter. */
  lemma {:induction false} StrikingCounts(f: Field, i: nat, at: Vec, j: nat)
    ensures var r := Striking(f, i, at, j);
      && |r.obstacles| + r.kills == |f.obstacles| + f.kills
      && r.kills >= f.kills
      && (r.kills == f.kills ==> r == f)
      && |r.lasers| <= |f.lasers|
      && (i < |f.lasers| && r.kills > f.kills ==> |r.lasers| < |f.lasers|)
      && (forall o :: o in r.obstacles ==> o in f.obstacles)
  {
    if j > 0 {
      StrikingCounts(f, i, at, j - 1);
    }
  }

  /** One step of the inner walk can only take out an obstacle the laser touches. */
  lemma StrikeStepSpares(f: Field, i: nat, at: Vec, j: nat)
    ensures var g := StrikeStep(f, i, at, j);
      forall o: Obstacle :: !Collides(at, o.pos) ==> multiset(g.obstacles)[o] == multiset(f.obstacles)[o]
  {
    if j < |f.obstacles| && Collides(at, f.obstacles[j].pos) {
      RemoveAtMultiset(f.obstacles, j);
    }
  }

  /** The inner walk spares every obstacle the laser does not touch: each copy of it stays. */
  lemma {:induction false} StrikingSpares(f: Field, i: nat, at: Vec, j: nat)
    ensures var r := Striking(f, i, at, j);
      forall o: Obstacle :: !Collides(at, o.pos) ==> multiset(r.obstacles)[o] == multiset(f.obstacles)[o]
  {
    if j > 0 {
      var p := Striking(f, i, at, j - 1);
      StrikingSpares(f, i, at, j - 1);
      StrikeStepSpares(p, i, at, j - 1);
      var g := StrikeStep(p, i, at, j - 1);
      assert Striking(f, i, at, j) == g;
      forall o: Obstacle | !Collides(at, o.pos)
        ensures multiset(g.obstacles)[o] == multiset(f.obstacles)[o]
      {
        assert multiset(g.obstacles)[o] == multiset(p.obstacles)[o];
      }
    }
  }

  /** The inner walk leaves the lasers before index i in place and splices a run of
      entries out from index i on, one per kill while the list reaches that far. */
  lemma {:induction false} StrikingLasers(f: Field, i: nat, at: Vec, j: nat)
    ensures var r := Striking(f, i, at, j);
      && (i >= |f.lasers| ==> r.lasers == f.lasers)
      && (i < |f.lasers| ==>
            && i <= |r.lasers| <= |f.lasers|
            && r.lasers == f.lasers[..i] + f.lasers[|f.lasers| - (|r.lasers| - i)..])
  {
    if j > 0 {
      StrikingLasers(f, i, at, j - 1);
      var p := Striking(f, i, at, j - 1);
      if i < |f.lasers| && j - 1 < |p.obstacles| && Collides(at, p.obstacles[j - 1].pos) && i < |p.lasers| {
        var cut := |f.lasers| - (|p.lasers| - i);
        assert p.lasers[..i] == f.lasers[..i];
        assert p.lasers[i + 1..] == f.lasers[cut + 1..];
      }
    }
  }

  /** The outer walk keeps count the same way the inner one does. */
  lemma {:induction false} FlyingCounts(f: Field, i: nat)
    ensures var r := Flying(f, i);
      && |r.obstacles| + r.kills == |f.obstacles| + f.kills
      && r.kills >= f.kills
      && |r.lasers| <= |f.lasers|
      && (forall o :: o in r.obstacles ==> o in f.obstacles)
  {
    if i > 0 {
      FlyingCounts(f, i - 1);
      var p := Flying(f, i - 1);
      if i - 1 < |p.lasers| {
        var l := Advanced(p.lasers[i - 1]);
        if l.pos.y <= LaserCeiling {
          var q := p.(lasers := p.lasers[i - 1 := l]);
          StrikingCounts(q, i - 1, l.pos, |q.obstacles|);
        }
      }
    }
  }

  /** r is what the outer walk has made of the laser list `before` once it has visited
      indices 0 .. i-1: every laser in it descends from one in `before`, and the entries
      from index i on are an untouched suffix of `before`. */
  ghost predicate LasersFrom(r: seq<Laser>, before: seq<Laser>, i: nat) {
    && |r| <= |before|
    && (i <= |r| ==> r[i..] == before[|before| - (|r| - i)..])
    && (forall l :: l in r ==> Descends(l, before))
  }

  /** Dropping the laser at index i, which has not been visited yet, keeps LasersFrom. */
  lemma DropKeepsLasersFrom(p: seq<Laser>, before: seq<Laser>, i: nat)
    requires i < |p| && LasersFrom(p, before, i)
    ensures LasersFrom(RemoveAt(p, i), before, i + 1)
  {
  }

  /** Moving the laser at index i up to l below the ceiling and running the inner walk
      with it keeps LasersFrom. */
  lemma StrikeKeepsLasersFrom(p: Field, before: seq<Laser>, i: nat)
    requires i < |p.lasers| && LasersFrom(p.lasers, before, i)
    requires Advanced(p.lasers[i]).pos.y <= LaserCeiling
    ensures var l := Advanced(p.lasers[i]);
      LasersFrom(Strike(p.(lasers := p.lasers[i := l]), i, l.pos).lasers, before, i + 1)
  {
    var m := p.lasers[i];
    var l := Advanced(m);
    var q := p.lasers[i := l];
    StrikingLasers(p.(lasers := q), i, l.pos, |p.obstacles|);
    var r := Strike(p.(lasers := q), i, l.pos).lasers;
    var cut := |q| - (|r| - i);
    assert r == q[..i] + q[cut..];
    assert p.lasers[i..][0] == m;
    assert m in before;
    if i + 1 <= |r| {
      assert r[i + 1..] == q[cut + 1..];
      assert q[cut + 1..] == p.lasers[cut + 1..];
      assert p.lasers[i..][cut + 1 - i..] == p.lasers[cut + 1..];
    }
    assert Lowered(l) == m;
    forall x | x in r
      ensures Descends(x, before)
    {
      var k :| 0 <= k < |q| && q[k] == x;
      if k != i {
        assert x == p.lasers[k];
      }
    }
  }

  /** The outer walk keeps LasersFrom for the laser list it began with. */
  lemma {:induction false} FlyingLasers(f: Field, i: nat)
    ensures LasersFrom(Flying(f, i).lasers, f.lasers, i)
  {
    if i == 0 {
      assert f.lasers[0..] == f.lasers;
    } else {
      FlyingLasers(f, i - 1);
      var p := Flying(f, i - 1);
      if i - 1 < |p.lasers| {
        if Advanced(p.lasers[i - 1]).pos.y > LaserCeiling {
          DropKeepsLasersFrom(p.lasers, f.lasers, i - 1);
        } else {
          StrikeKeepsLasersFrom(p, f.lasers, i - 1);
        }
      }
    }
  }

  /** No laser of `lasers`, once moved up by its speed, touches obstacle o. */
  ghost predicate Spared(o: Obstacle, lasers: seq<Laser>) {
    forall l :: l in lasers ==> !Collides(Advanced(l).pos, o.pos)
  }

  /** The outer walk spares every obstacle that no laser touches once it has moved up: each
      copy of such an obstacle stays, so every obstacle taken out was hit. */
  lemma {:induction false} FlyingSpares(f: Field, i: nat)
    ensures var r := Flying(f, i);
      forall o :: Spared(o, f.lasers) ==> multiset(r.obstacles)[o] == multiset(f.obstacles)[o]
  {
    if i > 0 {
      FlyingSpares(f, i - 1);
      var p := Flying(f, i - 1);
      if i - 1 < |p.lasers| {
        var m := p.lasers[i - 1];
        var l := Advanced(m);
        if l.pos.y <= LaserCeiling {
          FlyingLasers(f, i - 1);
          var cut := |f.lasers| - (|p.lasers| - (i - 1));
          assert p.lasers[i - 1..][0] == m;
          assert m == f.lasers[cut];
          var q := p.(lasers := p.lasers[i - 1 := l]);
          StrikingSpares(q, i - 1, l.pos, |q.obstacles|);
        }
      }
    }
  }

  /** If the outer walk has not shortened the laser list, nothing was shot down and every
      visited laser has just moved up by its speed. */
  lemma {:induction false} FlyingWithoutLoss(f: Field, i: nat)
    requires |Flying(f, i).lasers| == |f.lasers|
    ensures var r := Flying(f, i);
      && r.obstacles == f.obstacles && r.kills == f.kills
      && forall k :: 0 <= k < |r.lasers| ==> r.lasers[k] == if k < i then Advanced(f.lasers[k]) else f.lasers[k]
  {
    if i > 0 {
      var p := Flying(f, i - 1);
      FlyingCounts(f, i - 1);
      if i - 1 < |p.lasers| {
        var l := Advanced(p.lasers[i - 1]);
        var q := p.(lasers := p.lasers[i - 1 := l]);
        StrikingCounts(q, i - 1, l.pos, |q.obstacles|);
      }
      FlyingWithoutLoss(f, i - 1);
    }
  }

  /** What the laser pass promises: kills and obstacles add up, obstacles and lasers are
      only taken out, an obstacle that no laser touches is never taken out, every remaining
      laser descends from one before the pass, lasers stay below the ceiling at the laser
      speed, and a pass that loses no laser shoots nothing down and moves every laser up by
      its speed. */
  lemma FlyKeeps(f: Field)
    ensures var r := Fly(f);
      && |r.obstacles| + r.kills == |f.obstacles| + f.kills
      && |r.lasers| <= |f.lasers|
      && (forall o :: o in r.obstacles ==> o in f.obstacles)
      && (forall o :: Spared(o, f.lasers) ==> multiset(r.obstacles)[o] == multiset(f.obstacles)[o])
      && (forall l :: l in r.lasers ==> Descends(l, f.lasers))
      && (LasersOk(f.lasers) ==> LasersOk(r.lasers))
      && (|r.lasers| == |f.lasers| ==>
            && r.obstacles == f.obstacles && r.kills == f.kills
            && forall k :: 0 <= k < |r.lasers| ==> r.lasers[k] == Advanced(f.lasers[k]))
  {
    var r := Fly(f);
    FlyingCounts(f, |f.lasers|);
    FlyingLasers(f, |f.lasers|);
    FlyingSpares(f, |f.lasers|);
    if |r.lasers| == |f.lasers| {
      FlyingWithoutLoss(f, |f.lasers|);
    }
  }

  /** The inner walk for the laser at index i, located at `at`, run on the lists of f:
      every kill also adds `bounty` to the running score `points`. */
  method StrikeObstacles(f: Field, i: nat, at: Vec, bounty: nat, points: nat) returns (g: Field, total: nat)
    ensures g == Strike(f, i, at)
    ensures total + Awarded(bounty, f.kills) == points + Awarded(bounty, g.kills)
  {
    g, total := f, points;
    for j := 0 to |f.obstacles|
      invariant g == Striking(f, i, at, j)
      invariant total + Awarded(bounty, f.kills) == points + Awarded(bounty, g.kills)
    {
      if j < |g.obstacles| && Collides(at, g.obstacles[j].pos) {
        g := Field(RemoveAt(g.lasers, i), RemoveAt(g.obstacles, j), g.kills + 1);
        total := total + bounty;
      }
    }
  }
}
