/** Runs of the dictionary operators over the stack. */
module DictRuns {
  import opened Tokens
  import opened DictHeap
  import opened DictStack
  import opened DictOps
  import opened DictMoves
  import opened DictSnapshot

  // ---- tokens outside the stack ----

  /** A change of the tokens outside touches neither the stack nor what is on it. */
  lemma OutsideKeeps(t: Stack, s: Stack)
    requires Inv(s) && t == s.(h := t.h, held := t.held)
    requires Owned(t.h) && Balanced(t.h, Owners(t)) && Same(t.h, s.h, multiset(s.d)) && MarksSuffice(t)
    ensures Inv(t) && (Coherent(s) ==> Coherent(t))
  {
    hide Owned, Balanced, Owners, Same, MarksSuffice, Coherent, BaseCoherent, Anchored;
    CachesFrame(t, s);
  }

  lemma HeldOwners(s: Stack, t: Stack, id: DictId)
    requires t.d == s.d && t.arrays == s.arrays
    ensures t.held == s.held + multiset{id} ==> Owners(t) == Owners(s) + multiset{id}
    ensures id in s.held && t.held == s.held - multiset{id} ==> Owners(t) == Owners(s) - multiset{id}
    ensures multiset(s.d) <= Owners(t) && multiset(s.d) <= Owners(s)
  {
    hide ListingOwners;
  }

  function NewDict(s: Stack): Stack {
    s.(h := Fresh(s.h), held := s.held + multiset{|s.h.dicts|})
  }

  lemma NewDictKeeps(s: Stack)
    requires Inv(s)
    ensures Inv(NewDict(s)) && |s.h.dicts| in NewDict(s).held
    ensures Coherent(s) ==> Coherent(NewDict(s))
  {
    hide Counted, Coherent, BaseCoherent, Anchored, Owned, Balanced, Same, ListingOwners;
    var t := NewDict(s);
    HeldOwners(s, t, |s.h.dicts|);
    CountedBalances(s);
    FreshKeeps(s.h, Owners(s));
    NewIsUnlisted(s);
    hide Owners;
    FewerAreSame(t.h, s.h, multiset(s.d), Owners(s));
    OutsideKeeps(t, s);
  }

  lemma CountedBalances(s: Stack)
    requires Counted(s)
    ensures Owned(s.h) && Balanced(s.h, Owners(s)) && multiset(s.d) <= Owners(s)
    ensures multiset(Reversed(s.d)) <= Owners(s)
  {
    ClearOwners(s);
    ReversedIsPermutation(s.d);
  }

  lemma NewIsUnlisted(s: Stack)
    requires Counted(s)
    ensures MarksSuffice(NewDict(s))
  {
    ClearOwners(s);
    assert multiset(s.d) <= Owners(s) && |s.h.dicts| !in Owners(s) && MarksSuffice(s);
    hide Owners, Counted;
    assert |s.h.dicts| !in multiset(s.d);
  }

  lemma FreshKeeps(h: Heap, owners: multiset<DictId>)
    requires Owned(h) && Balanced(h, owners)
    ensures
      var g := Fresh(h);
      && Owned(g) && Balanced(g, owners + multiset{|h.dicts|}) && Same(g, h, owners)
  {
  }

  /** A token is copied that refers to a dictionary to which something refers. */
  function CopyDict(s: Stack, id: DictId): Stack
    requires id < |s.h.dicts|
  {
    s.(h := Acquire(s.h, id), held := s.held + multiset{id})
  }

  lemma CopyDictKeeps(s: Stack, id: DictId)
    requires Inv(s) && id < |s.h.dicts| && id in Owners(s)
    ensures Inv(CopyDict(s, id)) && (Coherent(s) ==> Coherent(CopyDict(s, id)))
  {
    var t := CopyDict(s, id);
    HeldOwners(s, t, id);
    AcquireBalances(s.h, Owners(s), id);
    assert MarksSuffice(t);
    hide *;
    FewerAreSame(t.h, s.h, multiset(s.d), Owners(s));
    OutsideKeeps(t, s);
  }

  /** A token goes. */
  ghost function DropDict(s: Stack, id: DictId): Stack
    requires Inv(s) && id in s.held
  {
    HeldIsAlive(s, id);
    s.(h := Release(s.h, id), held := s.held - multiset{id})
  }

  lemma DropDictKeeps(s: Stack, id: DictId)
    requires Inv(s) && id in s.held
    ensures Inv(DropDict(s, id)) && (Coherent(s) ==> Coherent(DropDict(s, id)))
  {
    var t := DropDict(s, id);
    HeldIsAlive(s, id);
    HeldOwners(s, t, id);
    ReleaseBalances(s.h, Owners(s), id);
    ReleaseMarks(s.h, id);
    MarksFrame(t, s);
    hide *;
    FewerAreSame(t.h, s.h, multiset(s.d), Owners(t));
    OutsideKeeps(t, s);
  }

  ghost function DropArray(s: Stack, a: ArrayId): Stack
    requires Inv(s) && a in s.heldArrays
  {
    DropListing(s, a).(heldArrays := s.heldArrays - multiset{a})
  }

  lemma DropArrayCounted(s: Stack, a: ArrayId)
    requires Counted(s) && a in s.heldArrays
    ensures
      var t := DropListing(s, a).(heldArrays := s.heldArrays - multiset{a});
      Counted(t) && Evolves(t.arrays, s.arrays) && Same(t.h, s.h, multiset(s.d))
  {
    DropBalances(s, a);
    var u := DropListing(s, a);
    var t := u.(heldArrays := s.heldArrays - multiset{a});
    assert Owners(t) == Owners(u);
    assert t.arrays == s.arrays[a := Dropped(s.arrays[a])];
    ClearOwners(t);
    assert MarksSuffice(t);
    hide Owned, Balanced, Owners, ListingOwners, View, Entries;
    FewerAreSame(t.h, s.h, multiset(s.d), Owners(t));
    hide Same, MarksSuffice;
    DropHeldBalanced(s, t, a);
  }

  lemma DropHeldBalanced(s: Stack, t: Stack, a: ArrayId)
    requires ArraysBalanced(s) && SnapshotFresh(s) && a in s.heldArrays && t.d == s.d && t.snapshot == s.snapshot
    requires t.arrays == s.arrays[a := Dropped(s.arrays[a])] && t.heldArrays == s.heldArrays - multiset{a}
    ensures ArraysBalanced(t) && SnapshotFresh(t) && Evolves(t.arrays, s.arrays)
  {
  }

  lemma DropArrayKeeps(s: Stack, a: ArrayId)
    requires Inv(s) && a in s.heldArrays
    ensures Inv(DropArray(s, a)) && Evolves(DropArray(s, a).arrays, s.arrays)
    ensures Coherent(s) ==> Coherent(DropArray(s, a))
  {
    DropArrayCounted(s, a);
    var t := DropArray(s, a);
    assert t == s.(h := t.h, arrays := t.arrays, heldArrays := t.heldArrays);
    hide Counted, Same, Coherent, BaseCoherent, Anchored, DropArray, Evolves;
    CachesFrame(t, s);
  }

  // ---- arrays outside the stack ----

  /** `[d1 d2 ...]`: the tokens move into a new array. */
  function BuildListing(s: Stack, items: seq<DictId>): Stack {
    s.(arrays := s.arrays + [Listing(items, 1, true)], held := s.held - multiset(items),
       heldArrays := s.heldArrays + multiset{|s.arrays|})
  }

  lemma MovedOwners(s: Stack, items: seq<DictId>)
    requires multiset(items) <= s.held
    ensures Owners(BuildListing(s, items)) == Owners(s)
  {
    var t := BuildListing(s, items);
    MaterialiseOwners(s, Listing(items, 1, true), s.snapshot);
    assert ListingOwners(t.arrays) == ListingOwners(s.arrays) + multiset(items);
    hide ListingOwners;
  }

  lemma BuildListingKeeps(s: Stack, items: seq<DictId>)
    requires Inv(s) && multiset(items) <= s.held
    ensures Inv(BuildListing(s, items)) && Evolves(BuildListing(s, items).arrays, s.arrays)
    ensures Coherent(s) ==> Coherent(BuildListing(s, items))
  {
    var t := BuildListing(s, items);
    MovedOwners(s, items);
    BuildListingBalanced(s, items);
    assert MarksSuffice(t);
    hide Owned, Balanced, Owners, Same, Coherent, BaseCoherent, Anchored, MarksSuffice, SnapshotFresh, ArraysBalanced,
      Evolves;
    SameItself(s.h, multiset(s.d));
    CachesFrame(t, s);
  }

  lemma SameItself(h: Heap, ids: multiset<DictId>)
    ensures Same(h, h, ids)
  {}

  lemma BuildListingBalanced(s: Stack, items: seq<DictId>)
    requires ArraysBalanced(s) && SnapshotFresh(s)
    ensures
      var t := BuildListing(s, items);
      ArraysBalanced(t) && SnapshotFresh(t) && Evolves(t.arrays, s.arrays)
  {}

  /** `put` of a dictionary into a writable array that lists dictionaries. */
  ghost function PutListing(s: Stack, a: ArrayId, k: nat, id: DictId): Stack
    requires Inv(s) && a in s.heldArrays && k < |s.arrays[a].items| && id in s.held
  {
    var x := s.arrays[a];
    HeldIsAlive(s, id);
    ItemIsAlive(s, a, k);
    s.(h := Release(Acquire(s.h, id), x.items[k]), arrays := s.arrays[a := x.(items := x.items[k := id])])
  }

  lemma ItemIsAlive(s: Stack, a: ArrayId, k: nat)
    requires Counted(s) && a < |s.arrays| && k < |s.arrays[a].items|
    ensures s.arrays[a].items[k] in Owners(s)
    ensures s.arrays[a].items[k] < |s.h.dicts| && s.h.dicts[s.arrays[a].items[k]].refs > 0
  {
    HeldItemsAreOwned(s, a);
    assert s.arrays[a].items[k] in multiset(s.arrays[a].items);
  }

  lemma PutOwners(s: Stack, t: Stack, a: ArrayId, k: nat, id: DictId)
    requires a < |s.arrays| && k < |s.arrays[a].items|
    requires t.arrays == s.arrays[a := s.arrays[a].(items := s.arrays[a].items[k := id])]
    requires t.held == s.held && t.d == s.d
    ensures Owners(t) == Owners(s) + multiset{id} - multiset{s.arrays[a].items[k]}
    ensures multiset(t.d) <= Owners(t)
  {
    var x := s.arrays[a];
    var l, m, was := ListingOwners(s.arrays), multiset(x.items), multiset{x.items[k]};
    ListingIsOwned(s.arrays, a, x.(items := x.items[k := id]));
    assert multiset(x.items[k := id]) == m - was + multiset{id};
    assert was <= m by { assert x.items[k] in m; }
    hide ListingOwners;
    ItemExchanged(s.held, multiset(s.d), l, m, x.items[k], id);
  }

  lemma ItemExchanged(held: multiset<DictId>, d: multiset<DictId>, listed: multiset<DictId>,
                      items: multiset<DictId>, was: DictId, id: DictId)
    requires was in items && items <= listed
    ensures
      var owners := held + d + (listed - items + (items - multiset{was} + multiset{id}));
      owners == held + d + listed + multiset{id} - multiset{was} && d <= owners
  {}

  lemma PutListingKeeps(s: Stack, a: ArrayId, k: nat, id: DictId)
    requires Inv(s) && a in s.heldArrays && k < |s.arrays[a].items| && id in s.held
    requires s.arrays[a].writable
    ensures Inv(PutListing(s, a, k, id)) && Evolves(PutListing(s, a, k, id).arrays, s.arrays)
    ensures Coherent(s) ==> Coherent(PutListing(s, a, k, id))
  {
    var t, x := PutListing(s, a, k, id), s.arrays[a];
    HeldIsAlive(s, id);
    ItemIsAlive(s, a, k);
    PutOwners(s, t, a, k, id);
    CountedBalances(s);
    ExchangeKeeps(s.h, Owners(s), id, x.items[k], multiset(s.d));
    assert t == s.(h := t.h, arrays := s.arrays[a := x.(items := x.items[k := id])]);
    hide Owned, Balanced, Owners, Same, Coherent, BaseCoherent, Anchored, PutListing, ListingOwners, Entries, View,
      Acquire, Release;
    MarksFrame(t, s);
    PutListingBalanced(s, t, a, k, id);
    hide MarksSuffice, SnapshotFresh, ArraysBalanced, Evolves;
    CachesFrame(t, s);
  }

  lemma PutListingBalanced(s: Stack, t: Stack, a: ArrayId, k: nat, id: DictId)
    requires ArraysBalanced(s) && SnapshotFresh(s) && a in s.heldArrays && k < |s.arrays[a].items|
    requires s.arrays[a].writable
    requires t.arrays == s.arrays[a := s.arrays[a].(items := s.arrays[a].items[k := id])]
    requires t.heldArrays == s.heldArrays && t.snapshot == s.snapshot && t.d == s.d
    ensures ArraysBalanced(t) && SnapshotFresh(t) && Evolves(t.arrays, s.arrays)
  {}

  /** One reference to id is taken, then one to `was` is given back. */
  lemma ExchangeKeeps(h: Heap, owners: multiset<DictId>, id: DictId, was: DictId, few: multiset<DictId>)
    requires Owned(h) && Balanced(h, owners) && id in owners && was in owners
    requires few <= owners + multiset{id} - multiset{was} && few <= owners
    ensures id < |h.dicts| && was < |h.dicts| && h.dicts[was].refs > 0
    ensures
      var g, left := Release(Acquire(h, id), was), owners + multiset{id} - multiset{was};
      && Owned(g) && Balanced(g, left) && |g.dicts| == |h.dicts|
      && Same(g, h, few)
      && forall j :: 0 <= j < |h.dicts| ==> g.dicts[j].marks == h.dicts[j].marks
  {
    AcquireBalances(h, owners, id);
    var g := Acquire(h, id);
    ReleaseBalances(g, owners + multiset{id}, was);
    ReleaseMarks(g, was);
    hide Owned, Balanced, Same, Release;
    FewerAreSame(Release(g, was), g, few, owners + multiset{id} - multiset{was});
    SameTrans(Release(g, was), g, h, few, owners);
  }

  // ---- restoredstack and cleardictstack ----

  /** `restoredstack`: nothing happens when the listing is the stack as it is. */
  ghost function Restore(s: Stack, a: ArrayId): Stack
    requires Inv(s) && a in s.heldArrays && s.arrays[a].items != []
  {
    if s.arrays[a].items == Reversed(s.d) then s else Rebuild(s, a)
  }

  /** In use the stack is never empty, and the base is its bottom. */
  ghost predicate Ready(s: Stack) {
    Inv(s) && s.d != [] && s.base == Some(s.d[|s.d| - 1])
  }

  lemma ReversedTwice(items: seq<DictId>, d: seq<DictId>)
    ensures items == Reversed(d) <==> Reversed(items) == d
  {}

  lemma RestoreKeeps(s: Stack, a: ArrayId)
    requires Ready(s) && a in s.heldArrays && s.arrays[a].items != []
    ensures
      var t, items := Restore(s, a), s.arrays[a].items;
      && Ready(t) && t.d == Reversed(items) && t.base == Some(items[0])
      && Same(t.h, s.h, multiset(items)) && Evolves(t.arrays, s.arrays)
      && (Coherent(s) ==> Coherent(t))
  {
    var items := s.arrays[a].items;
    ReversedTwice(items, s.d);
    if items == Reversed(s.d) {
      assert items[0] == s.d[|s.d| - 1];
    } else {
      RebuildKeeps(s, a);
      assert Reversed(items)[|items| - 1] == items[0];
    }
  }

  lemma SameMeaning(g: Heap, h: Heap, d: seq<DictId>)
    requires Same(g, h, multiset(d))
    ensures Meaning(g, d) == Meaning(h, d)
  {}

  /** Doing nothing is as good as the rebuild: the same list, base and bindings. */
  lemma FastPathIsRebuild(s: Stack, a: ArrayId)
    requires Ready(s) && a in s.heldArrays && s.arrays[a].items == Reversed(s.d) && s.arrays[a].items != []
    ensures
      var t := Rebuild(s, a);
      && Ready(t) && Coherent(t) && t.d == s.d && t.base == s.base && Meaning(t.h, t.d) == Meaning(s.h, s.d)
      && Same(t.h, s.h, multiset(s.d))
  {
    var t, items := Rebuild(s, a), s.arrays[a].items;
    RebuildKeeps(s, a);
    ReversedTwice(items, s.d);
    ReversedIsPermutation(s.d);
    assert items[0] == s.d[|s.d| - 1];
    hide Rebuild, Reversed, Inv;
    SameMeaning(t.h, s.h, s.d);
  }

  /** After the rebuild `baselookup` finds every name at the same node; `lookup` does so
      exactly where the cached pointer, if there is one, is the one that the plain search finds. */
  lemma FastPathFindsTheSame(s: Stack, a: ArrayId, n: Name)
    requires Ready(s) && a in s.heldArrays && s.arrays[a].items == Reversed(s.d) && s.arrays[a].items != []
    ensures
      var t := Rebuild(s, a);
      && Baselookup(t, n).1 == Baselookup(s, n).1
      && (Find(t, n).1 == Find(s, n).1 <==> (n in s.cache ==> Search(s.h, s.d, n) == Some(s.cache[n])))
  {
    var t := Rebuild(s, a);
    FastPathIsRebuild(s, a);
    assert s.base.value in multiset(s.d);
    assert Counted(s) && BaseCoherent(s) && Counted(t) && BaseCoherent(t);
    hide Rebuild, Reversed, Inv, Counted, BaseCoherent, Search, Baselookup, View, Entries, Meaning, Same;
    FindIsSearch(t, n);
    SearchSame(t.h, s.h, s.d, n);
    BaselookupIsBase(s, n);
    BaselookupIsBase(t, n);
    SameEntries(t.h, s.h, multiset(s.d), s.base.value);
  }

  /** The bottom becomes the base. */
  function SetBasedict(s: Stack): Stack
    requires s.d != []
  {
    s.(base := Some(s.d[|s.d| - 1]))
  }

  lemma SetBasedictKeeps(s: Stack)
    requires Inv(s) && s.d != [] && s.basecache == map[]
    ensures Ready(SetBasedict(s)) && (Coherent(s) ==> Coherent(SetBasedict(s)))
  {
    var t := SetBasedict(s);
    assert Owners(t) == Owners(s);
    hide Owned, Balanced, Owners;
  }

  lemma BeginKeeps(s: Stack, id: DictId)
    requires Ready(s) && id in s.held
    ensures
      var t := Push(s, id);
      && Ready(t) && t.d == [id] + s.d && t.held == s.held && Evolves(t.arrays, s.arrays)
      && (Coherent(s) ==> Coherent(t))
  {
    PushKeeps(s, id);
    hide Inv, Push;
  }

  /** The stack with the system dictionary alone. */
  ghost function BaseOnly(s: Stack, system: DictId): Stack
    requires Inv(s) && system in s.held
  {
    ClearKeeps(s);
    PushKeeps(Clear(s), system);
    SetBasedict(Push(Clear(s), system))
  }

  lemma BaseOnlyReady(s: Stack, system: DictId)
    requires Inv(s) && system in s.held
    ensures
      var t := BaseOnly(s, system);
      && Ready(t) && t.d == [system] && t.held == s.held && Evolves(t.arrays, s.arrays)
      && Coherent(t)
  {
    ClearKeeps(s);
    var c := Clear(s);
    PushKeeps(c, system);
    var p := Push(c, system);
    assert BaseOnly(s, system) == SetBasedict(p);
    hide Inv, Push, Clear, Evolves;
    SetBasedictKeeps(p);
    EvolvesTrans(p.arrays, c.arrays, s.arrays);
  }

  /** The permanent dictionaries that `end` protects. */
  const PERMANENT := 3

  /** `cleardictstack`: the three permanent dictionaries, and nothing else. */
  ghost function Reset(s: Stack, system: DictId, global: DictId, user: DictId): Stack
    requires Inv(s) && system in s.held && global in s.held && user in s.held
  {
    BaseOnlyReady(s, system);
    var q := BaseOnly(s, system);
    PushKeeps(q, global);
    Push(Push(q, global), user)
  }

  lemma ResetKeeps(s: Stack, system: DictId, global: DictId, user: DictId)
    requires Inv(s) && system in s.held && global in s.held && user in s.held
    ensures
      var t := Reset(s, system, global, user);
      && Ready(t) && t.d == [user, global, system] && t.held == s.held && Evolves(t.arrays, s.arrays)
      && Coherent(t) && |t.d| == PERMANENT
  {
    hide BaseOnly, Counted, Coherent, BaseCoherent, Anchored, Push, Evolves;
    BaseOnlyReady(s, system);
    var q := BaseOnly(s, system);
    BeginKeeps(q, global);
    var r := Push(q, global);
    assert Reset(s, system, global, user) == Push(r, user);
    hide *;
    BeginKeeps(r, user);
    EvolvesTrans(r.arrays, q.arrays, s.arrays);
    EvolvesTrans(Push(r, user).arrays, r.arrays, s.arrays);
  }
}
