/** The two ways the game removes entries from its entity lists. */
module Lists {

  /** `list.splice(i, 1)`: removes the entry at index i and keeps the rest in order;
      an index past the end removes nothing. */
  function RemoveAt<T(!new)>(s: seq<T>, i: nat): (r: seq<T>)
    ensures i < |s| ==> |r| == |s| - 1
    ensures i >= |s| ==> r == s
    ensures forall j :: 0 <= j < |r| ==> r[j] == if j < i then s[j] else s[j + 1]
    ensures forall x :: x in r ==> x in s
  {
    if i < |s| then s[..i] + s[i + 1..] else s
  }

  /** Splicing out entry i takes exactly that entry out of the multiset of entries. */
  lemma RemoveAtMultiset<T(!new)>(s: seq<T>, i: nat)
    requires i < |s|
    ensures multiset(RemoveAt(s, i)) == multiset(s) - multiset{s[i]}
  {
    assert s == s[..i] + [s[i]] + s[i + 1..];
  }

  /** `list.filter(x => x !== v)`: keeps, in order, every entry other than v. */
  function RemoveAll<T(==, !new)>(s: seq<T>, v: T): (r: seq<T>)
    ensures forall x :: x in r <==> x in s && x != v
    ensures |r| <= |s|
  {
    if s == [] then []
    else RemoveAll(s[..|s| - 1], v) + (if s[|s| - 1] == v then [] else [s[|s| - 1]])
  }
}
