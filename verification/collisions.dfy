/** Rocket-obstacle contact: which obstacles touch the rocket, and what the shielded
    sweep over the obstacle list leaves behind. */
module Collisions {
  import opened Geometry
  import opened Entities
  import opened Lists

  /** How many obstacles of s touch position `at`. */
  function HitCount(s: seq<Obstacle>, at: Vec): (n: nat)
    ensures n <= |s|
    ensures n == 0 <==> forall o :: o in s ==> !Collides(at, o.pos)
  {
    if s == [] then 0
    else
      assert forall o :: o in s <==> o in s[..|s| - 1] || o == s[|s| - 1] by {
        assert s == s[..|s| - 1] + [s[|s| - 1]];
      }
      HitCount(s[..|s| - 1], at) + (if Collides(at, s[|s| - 1].pos) then 1 else 0)
  }

  /** Extending a prefix by one entry adds one hit exactly when that entry touches `at`. */
  lemma HitCountStep(s: seq<Obstacle>, k: nat, at: Vec)
    requires k < |s|
    ensures HitCount(s[..k + 1], at) == HitCount(s[..k], at) + if Collides(at, s[k].pos) then 1 else 0
  {
    assert s[..k + 1][..k] == s[..k];
  }

  /** The obstacles of s that do not touch `at`, in their order. */
  function Unhit(s: seq<Obstacle>, at: Vec): (r: seq<Obstacle>)
    ensures |r| + HitCount(s, at) == |s|
    ensures forall o :: o in r <==> o in s && !Collides(at, o.pos)
  {
    if s == [] then []
    else
      assert s == s[..|s| - 1] + [s[|s| - 1]];
      Unhit(s[..|s| - 1], at) + (if Collides(at, s[|s| - 1].pos) then [] else [s[|s| - 1]])
  }

  /** Unhit keeps the survivors in their order: it works on a list part by part. */
  lemma {:induction false} UnhitAppend(a: seq<Obstacle>, b: seq<Obstacle>, at: Vec)
    ensures Unhit(a + b, at) == Unhit(a, at) + Unhit(b, at)
  {
    if b != [] {
      var init := b[..|b| - 1];
      assert (a + b)[..|a + b| - 1] == a + init;
      UnhitAppend(a, init, at);
    } else {
      assert a + b == a;
    }
  }

  /** s without the entries that touch `at` and occur in `done`: what the obstacle list
      has become once the shielded sweep has visited the entries of `done`. */
  function Swept(s: seq<Obstacle>, done: seq<Obstacle>, at: Vec): seq<Obstacle> {
    if s == [] then []
    else
      var last := s[|s| - 1];
      Swept(s[..|s| - 1], done, at) + (if Collides(at, last.pos) && last in done then [] else [last])
  }

  /** Before the sweep has visited anything, nothing is removed. */
  lemma {:induction false} SweptNothing(s: seq<Obstacle>, at: Vec)
    ensures Swept(s, [], at) == s
  {
    if s != [] {
      SweptNothing(s[..|s| - 1], at);
    }
  }

  /** Visiting one more obstacle v that touches the rocket filters v out of the list. */
  lemma {:induction false} SweptStep(s: seq<Obstacle>, done: seq<Obstacle>, v: Obstacle, at: Vec)
    requires Collides(at, v.pos)
    ensures RemoveAll(Swept(s, done, at), v) == Swept(s, done + [v], at)
  {
    if s != [] {
      var init, last := s[..|s| - 1], s[|s| - 1];
      SweptStep(init, done, v, at);
      var kept := if Collides(at, last.pos) && last in done then [] else [last];
      assert Swept(s, done, at) == Swept(init, done, at) + kept;
      RemoveAllAppend(Swept(init, done, at), kept, v);
    }
  }

  /** Visiting an obstacle that does not touch the rocket changes nothing. */
  lemma {:induction false} SweptSkip(s: seq<Obstacle>, done: seq<Obstacle>, v: Obstacle, at: Vec)
    requires !Collides(at, v.pos)
    ensures Swept(s, done + [v], at) == Swept(s, done, at)
  {
    if s != [] {
      SweptSkip(s[..|s| - 1], done, v, at);
    }
  }

  /** The sweep state after visiting entry k of s, from the state before it. */
  lemma SweptAdvance(s: seq<Obstacle>, k: nat, at: Vec)
    requires k < |s|
    ensures Swept(s, s[..k + 1], at) ==
      if Collides(at, s[k].pos) then RemoveAll(Swept(s, s[..k], at), s[k]) else Swept(s, s[..k], at)
  {
    assert s[..k] + [s[k]] == s[..k + 1];
    if Collides(at, s[k].pos) {
      SweptStep(s, s[..k], s[k], at);
    } else {
      SweptSkip(s, s[..k], s[k], at);
    }
  }

  /** Filtering a concatenation filters each part. */
  lemma {:induction false} RemoveAllAppend(a: seq<Obstacle>, b: seq<Obstacle>, v: Obstacle)
    ensures RemoveAll(a + b, v) == RemoveAll(a, v) + RemoveAll(b, v)
  {
    if b != [] {
      var init := b[..|b| - 1];
      assert (a + b)[..|a + b| - 1] == a + init;
      RemoveAllAppend(a, init, v);
    } else {
      assert a + b == a;
    }
  }

  /** Once the sweep has visited every obstacle of the list, exactly the ones touching the
      rocket are gone. */
  lemma {:induction false} SweptEverything(s: seq<Obstacle>, done: seq<Obstacle>, at: Vec)
    requires forall o :: o in s ==> o in done
    ensures Swept(s, done, at) == Unhit(s, at)
  {
    if s != [] {
      assert s == s[..|s| - 1] + [s[|s| - 1]];
      SweptEverything(s[..|s| - 1], done, at);
    }
  }

  /** The obstacle list once the shielded pass over the snapshot s has visited its first
      k entries: each visited entry touching `at` has been filtered out of the list. */
  function RamSweep(s: seq<Obstacle>, k: nat, at: Vec): seq<Obstacle>
    requires k <= |s|
  {
    if k == 0 then s
    else
      var prev := RamSweep(s, k - 1, at);
      if Collides(at, s[k - 1].pos) then RemoveAll(prev, s[k - 1]) else prev
  }

  /** How many of the first k entries of s touch `at`. */
  function HitsBefore(s: seq<Obstacle>, k: nat, at: Vec): nat
    requires k <= |s|
  {
    if k == 0 then 0 else HitsBefore(s, k - 1, at) + if Collides(at, s[k - 1].pos) then 1 else 0
  }

  lemma {:induction false} RamSweepIsSwept(s: seq<Obstacle>, k: nat, at: Vec)
    requires k <= |s|
    ensures RamSweep(s, k, at) == Swept(s, s[..k], at)
    ensures HitsBefore(s, k, at) == HitCount(s[..k], at)
  {
    if k == 0 {
      SweptNothing(s, at);
    } else {
      RamSweepIsSwept(s, k - 1, at);
      SweptAdvance(s, k - 1, at);
      HitCountStep(s, k - 1, at);
    }
  }

  /** The shielded pass over the whole snapshot leaves exactly the obstacles that do not
      touch `at`, and meets each touching entry of the snapshot once. */
  lemma RamSweepComplete(s: seq<Obstacle>, at: Vec)
    ensures RamSweep(s, |s|, at) == Unhit(s, at)
    ensures HitsBefore(s, |s|, at) == HitCount(s, at)
  {
    RamSweepIsSwept(s, |s|, at);
    assert s[..|s|] == s;
    SweptEverything(s, s, at);
  }
}
