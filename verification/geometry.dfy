/** Positions in the playfield and the proximity test behind every collision of the game. */
module Geometry {

  /** A point of the playfield. Every entity of the game sits at depth 0, so only x and y matter. */
  datatype Vec = Vec(x: real, y: real)

  /** Two entities collide when they are closer than this many playfield units. */
  const CollisionRadius: real := 2.0

  /** Squared Euclidean distance; comparing it with the squared radius avoids a square root. */
  function DistSq(a: Vec, b: Vec): (d: real)
    ensures d >= 0.0
  {
    (a.x - b.x) * (a.x - b.x) + (a.y - b.y) * (a.y - b.y)
  }

  /** The collision test of the game: the two positions are less than CollisionRadius apart. */
  predicate Collides(a: Vec, b: Vec) {
    DistSq(a, b) < CollisionRadius * CollisionRadius
  }

  /** The test does not depend on the order of its arguments. */
  lemma CollidesSymmetric(a: Vec, b: Vec)
    ensures Collides(a, b) == Collides(b, a)
  {
  }

  /** Comparing squared distances decides exactly what comparing the distance itself decides:
      for the (non-negative) distance `dist` between a and b, they collide iff dist < 2. */
  lemma CollidesIffCloserThanRadius(a: Vec, b: Vec, dist: real)
    requires dist >= 0.0 && dist * dist == DistSq(a, b)
    ensures Collides(a, b) <==> dist < CollisionRadius
  {
    if dist < CollisionRadius {
      assert dist * dist <= dist * CollisionRadius;
      assert dist * CollisionRadius < CollisionRadius * CollisionRadius;
    } else {
      assert dist * dist >= dist * CollisionRadius;
      assert dist * CollisionRadius >= CollisionRadius * CollisionRadius;
    }
  }
}
