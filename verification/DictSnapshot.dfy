/** The snapshot of the dictionary stack and its way back. */
module DictSnapshot {
  import opened Tokens
  import opened DictHeap
  import opened DictStack
  import opened DictOps
  import opened DictMoves

  // ---- dictstack ----

  /** A listing of the stack, bottom first, with one reference for the cache. */
  ghost function Materialise(s: Stack): Stack
    requires Counted(s) && s.snapshot.None?
  {
    var items := Reversed(s.d);
    ReversedIsPermutation(s.d);
    ClearOwners(s);
    s.(h := EnterAll(s.h, items, 0, Owners(s)), arrays := s.arrays + [Listing(items, 1, false)],
       snapshot := Some(|s.arrays|))
  }

  lemma {:induction false} ReversedIsPermutation(d: seq<DictId>)
    ensures multiset(Reversed(d)) == multiset(d)
    decreases |d|
  {
    if d == [] {
      assert Reversed(d) == [];
    } else {
      ReversedIsPermutation(d[1..]);
      assert Reversed(d) == Reversed(d[1..]) + [d[0]];
      assert d == [d[0]] + d[1..];
    }
  }

  lemma MaterialiseOwners(s: Stack, x: Listing, a: Option<ArrayId>)
    ensures Owners(s.(arrays := s.arrays + [x], snapshot := a)) == Owners(s) + multiset(x.items)
  {}

  lemma ListingAdded(s: Stack, t: Stack)
    requires ArraysBalanced(s) && s.snapshot.None? && t.d == s.d && t.heldArrays == s.heldArrays
    requires t.arrays == s.arrays + [Listing(Reversed(s.d), 1, false)] && t.snapshot == Some(|s.arrays|)
    ensures ArraysBalanced(t) && SnapshotFresh(t)
  {}

  lemma MaterialiseCounted(s: Stack)
    requires Counted(s) && s.snapshot.None?
    ensures
      var t := Materialise(s);
      && Counted(t) && Same(t.h, s.h, Owners(s)) && t.snapshot == Some(|s.arrays|)
      && t == s.(h := t.h, arrays := t.arrays, snapshot := t.snapshot)
      && t.arrays == s.arrays + [Listing(Reversed(s.d), 1, false)] && |t.h.dicts| == |s.h.dicts|
  {
    var t, x := Materialise(s), Listing(Reversed(s.d), 1, false);
    ReversedIsPermutation(s.d);
    ClearOwners(s);
    MaterialiseOwners(s, x, t.snapshot);
    assert MarksSuffice(s) && ArraysBalanced(s);
    assert Owners(t) == Owners(s.(arrays := t.arrays, snapshot := t.snapshot));
    assert Owned(t.h) && Balanced(t.h, Owners(t));
    hide Owned, Balanced, Owners, Same, ArraysBalanced, SnapshotFresh, ListingOwners;
    ListingAdded(s, t);
  }

  /** The cached listing is made if need be. */
  ghost function Listed(s: Stack): (u: Stack)
    requires Counted(s)
    ensures Counted(u) && u.snapshot.Some? && Same(u.h, s.h, Owners(s)) && Evolves(u.arrays, s.arrays)
    ensures u == s.(h := u.h, arrays := u.arrays, snapshot := u.snapshot)
  {
    EvolvesItself(s.arrays);
    if s.snapshot.Some? then s
    else
      MaterialiseCounted(s);
      Materialise(s)
  }

  lemma EvolvesItself(s: seq<Listing>)
    ensures Evolves(s, s)
  {
  }

  lemma ListingIsFresh(s: Stack)
    requires Counted(s) && s.snapshot.Some?
    ensures
      var a := s.snapshot.value;
      && a < |s.arrays| && s.arrays[a].refs > 0
      && s.arrays[a].items == Reversed(s.d) && !s.arrays[a].writable
  {}

  /** `dictstack`: one reference to the cached listing is given away. */
  ghost function Snapshot(s: Stack): (Stack, ArrayId)
    requires Inv(s)
  {
    var a := Listed(s).snapshot.value;
    (HoldArray(Listed(s), a), a)
  }

  /** A token outside takes one more reference to a listing. */
  function HoldArray(s: Stack, a: ArrayId): Stack {
    if a < |s.arrays| then
      s.(arrays := s.arrays[a := s.arrays[a].(refs := s.arrays[a].refs + 1)],
         heldArrays := s.heldArrays + multiset{a})
    else s
  }

  lemma HoldArrayOwners(s: Stack, a: ArrayId)
    requires a < |s.arrays|
    ensures Owners(HoldArray(s, a)) == Owners(s)
  {
    var x := s.arrays[a].(refs := s.arrays[a].refs + 1);
    SameItemsOwned(s.arrays, a, x);
    assert HoldArray(s, a).arrays == s.arrays[a := x];
    hide ListingOwners;
  }

  lemma SameItemsOwned(arrays: seq<Listing>, a: ArrayId, x: Listing)
    requires a < |arrays| && x.items == arrays[a].items
    ensures ListingOwners(arrays[a := x]) == ListingOwners(arrays)
  {
    ListingIsOwned(arrays, a, x);
    hide ListingOwners;
    GiveBack(ListingOwners(arrays), multiset(x.items));
  }

  lemma GiveBack(l: multiset<DictId>, m: multiset<DictId>)
    requires m <= l
    ensures l - m + m == l
  {
  }

  lemma HoldArrayBalanced(s: Stack, a: ArrayId)
    requires ArraysBalanced(s) && SnapshotFresh(s) && a < |s.arrays| && s.arrays[a].refs > 0
    ensures ArraysBalanced(HoldArray(s, a)) && SnapshotFresh(HoldArray(s, a))
  {
  }

  lemma HoldArrayCounted(s: Stack, a: ArrayId)
    requires Counted(s) && a < |s.arrays| && s.arrays[a].refs > 0
    ensures Counted(HoldArray(s, a)) && Evolves(HoldArray(s, a).arrays, s.arrays)
  {
    HoldArrayOwners(s, a);
    HoldArrayBalanced(s, a);
    assert Evolves(HoldArray(s, a).arrays, s.arrays);
    hide Evolves,  Owned, Balanced, Owners, ArraysBalanced, SnapshotFresh;
  }

  /** The snapshot lists the stack bottom first, and the stack does not change. */
  lemma SnapshotKeeps(s: Stack)
    requires Inv(s)
    ensures
      var (t, a) := Snapshot(s);
      && Inv(t) && t.snapshot == Some(a) && a in t.heldArrays
      && a < |t.arrays| && t.arrays[a].items == Reversed(s.d)
      && t == s.(h := t.h, arrays := t.arrays, snapshot := t.snapshot, heldArrays := t.heldArrays)
      && !t.arrays[a].writable && Same(t.h, s.h, Owners(s)) && Evolves(t.arrays, s.arrays)
      && (Coherent(s) ==> Coherent(t))
  {
    hide Listed, Counted, Owners, Same, Coherent, BaseCoherent, Anchored, Evolves, Reversed;
    var u := Listed(s);
    var a := u.snapshot.value;
    ListingIsFresh(u);
    Handed(s, u, a);
  }

  lemma Handed(s: Stack, u: Stack, a: ArrayId)
    requires Inv(s) && Counted(u) && Same(u.h, s.h, Owners(s)) && Evolves(u.arrays, s.arrays)
    requires a < |u.arrays| && u.arrays[a].refs > 0
    requires u == s.(h := u.h, arrays := u.arrays, snapshot := u.snapshot)
    ensures Inv(HoldArray(u, a)) && Evolves(HoldArray(u, a).arrays, s.arrays)
    ensures Coherent(s) ==> Coherent(HoldArray(u, a))
  {
    var t := HoldArray(u, a);
    HoldArrayCounted(u, a);
    ClearOwners(s);
    hide Counted, Owners, Same, Coherent, BaseCoherent, Anchored, Evolves;
    EvolvesTrans(t.arrays, u.arrays, s.arrays);
    FewerAreSame(t.h, s.h, multiset(s.d), Owners(s));
    CachesFrame(t, s);
  }

  // ---- restoredstack ----

  /** The listed dictionaries come onto the empty stack. */
  ghost function Refill(c: Stack, items: seq<DictId>): Stack
    requires Counted(c) && multiset(items) <= Owners(c) && items != []
  {
    c.(h := EnterAll(c.h, items, 1, Owners(c)), d := Reversed(items), base := Some(items[0]))
  }

  lemma RefillKeeps(c: Stack, items: seq<DictId>)
    requires Inv(c) && multiset(items) <= Owners(c) && items != []
    requires c.d == [] && c.snapshot.None? && c.cache == map[] && c.basecache == map[]
    ensures Inv(Refill(c, items)) && Coherent(Refill(c, items)) && Same(Refill(c, items).h, c.h, Owners(c))
  {
    var t := Refill(c, items);
    RebuildOwners(c, items);
    ReversedIsPermutation(items);
    assert Owners(t) == Owners(c.(d := Reversed(items)));
    assert MarksSuffice(c) && Counted(c) && Owned(t.h) && Balanced(t.h, Owners(t));
    hide Owned, Balanced, Owners, Same, ListingOwners, EnterAll, View, Entries, Counted;
    assert MarksSuffice(t);
    CountedParts(t, c);
  }

  lemma HeldItemsAreOwned(c: Stack, a: ArrayId)
    requires a < |c.arrays|
    ensures multiset(c.arrays[a].items) <= Owners(c)
  {
    ListingIsOwned(c.arrays, a, c.arrays[a]);
    hide ListingOwners;
  }

  /** The slow path: everything goes, then the listed dictionaries come back. */
  ghost function Rebuild(s: Stack, a: ArrayId): Stack
    requires Inv(s) && a in s.heldArrays && s.arrays[a].items != []
  {
    ClearKeeps(s);
    HeldItemsAreOwned(Clear(s), a);
    Refill(Clear(s), s.arrays[a].items)
  }

  /** While the stack is being cleared, nothing that the listing names is freed or changed. */
  lemma ListedSurvive(s: Stack, a: ArrayId, id: DictId)
    requires Inv(s) && a in s.heldArrays && id in s.arrays[a].items
    ensures
      var c := Clear(s);
      && id < |c.h.dicts| && c.h.dicts[id].refs > 0 && id in Owners(c)
      && Entries(c.h, id) == Entries(s.h, id) && View(c.h, id) == View(s.h, id)
  {
    ClearKeeps(s);
    var c := Clear(s);
    ListingIsOwned(c.arrays, a, c.arrays[a]);
    assert id in multiset(c.arrays[a].items);
    assert id in ListingOwners(c.arrays);
    assert Owners(c)[id] >= ListingOwners(c.arrays)[id];
  }

  lemma RebuildOwners(c: Stack, items: seq<DictId>)
    requires c.d == []
    ensures Owners(c.(d := Reversed(items))) == Owners(c) + multiset(items)
  {
    ReversedIsPermutation(items);
    hide ListingOwners;
  }

  lemma RebuildKeeps(s: Stack, a: ArrayId)
    requires Inv(s) && a in s.heldArrays && s.arrays[a].items != []
    ensures
      var t, items := Rebuild(s, a), s.arrays[a].items;
      && Inv(t) && Coherent(t) && t.d == Reversed(items) && t.base == Some(items[0])
      && t.held == s.held && t.heldArrays == s.heldArrays && |t.arrays| == |s.arrays|
      && |t.h.dicts| == |s.h.dicts| && Same(t.h, s.h, multiset(items))
      && Evolves(t.arrays, s.arrays)
  {
    ClearKeeps(s);
    var c, t, items := Clear(s), Rebuild(s, a), s.arrays[a].items;
    HeldItemsAreOwned(c, a);
    assert |t.h.dicts| == |c.h.dicts|;
    hide Owners, Same, Clear, Inv, Coherent;
    RefillKeeps(c, items);
    FewerAreSame(t.h, c.h, multiset(items), Owners(c));
    SameTrans(t.h, c.h, s.h, multiset(items), Owners(c));
  }
}
