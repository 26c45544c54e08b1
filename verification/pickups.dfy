/** The power-up pass of a frame (step 8) as a computation on values. The game walks the
    power-up list by index and splices out every power-up touching the rocket while it
    walks, so the entry that moves into a spliced slot is not looked at in this frame. */
module Pickups {
  import opened Geometry
  import opened Entities
  import opened Lists

  /** The list as the walk leaves it, and the power-ups taken so far, in order. */
  datatype Haul = Haul(remaining: seq<PowerUp>, collected: seq<PowerUp>)

  /** The walk at index k, for the rocket at `at`. */
  function PickStep(h: Haul, at: Vec, k: nat): Haul {
    if k < |h.remaining| && Collides(at, h.remaining[k].pos) then
      Haul(RemoveAt(h.remaining, k), h.collected + [h.remaining[k]])
    else h
  }

  /** The walk over the power-ups s after indices 0 .. k-1. */
  function Picking(s: seq<PowerUp>, at: Vec, k: nat): Haul {
    if k == 0 then Haul(s, []) else PickStep(Picking(s, at, k - 1), at, k - 1)
  }

  /** The whole walk, over as many indices as there were power-ups when it began. */
  function Pickup(s: seq<PowerUp>, at: Vec): Haul {
    Picking(s, at, |s|)
  }

  /** One step of the walk moves at most one power-up from the list to the haul. */
  lemma PickStepKeeps(h: Haul, at: Vec, k: nat)
    ensures var g := PickStep(h, at, k);
      && multiset(g.remaining) + multiset(g.collected) == multiset(h.remaining) + multiset(h.collected)
      && |g.remaining| + |g.collected| == |h.remaining| + |h.collected|
  {
    if k < |h.remaining| && Collides(at, h.remaining[k].pos) {
      var p := h.remaining[k];
      RemoveAtMultiset(h.remaining, k);
      assert multiset(h.collected + [p]) == multiset(h.collected) + multiset{p};
    }
  }

  /** The walk only moves power-ups from the list to the haul: together they are the list
      it began with. */
  lemma {:induction false} PickingKeeps(s: seq<PowerUp>, at: Vec, k: nat)
    ensures var h := Picking(s, at, k);
      && multiset(h.remaining) + multiset(h.collected) == multiset(s)
      && |h.remaining| + |h.collected| == |s|
  {
    if k > 0 {
      PickingKeeps(s, at, k - 1);
      PickStepKeeps(Picking(s, at, k - 1), at, k - 1);
    }
  }

  /** What the walk leaves in the list was in it before, and everything it hauls touches
      the rocket. */
  lemma {:induction false} PickingSorts(s: seq<PowerUp>, at: Vec, k: nat)
    ensures var h := Picking(s, at, k);
      && (forall p :: p in h.remaining ==> p in s)
      && (forall p :: p in h.collected ==> Collides(at, p.pos))
  {
    if k > 0 {
      PickingSorts(s, at, k - 1);
    }
  }
}
