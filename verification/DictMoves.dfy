/** The operations that change which dictionaries are on the stack. */
module DictMoves {
  import opened Tokens
  import opened DictHeap
  import opened DictStack
  import opened DictOps

  function Keys(h: Heap, id: DictId): set<Name> {
    Entries(h, id).Keys
  }

  // ---- push ----

  lemma HeldIsAlive(s: Stack, id: DictId)
    requires Counted(s) && id in s.held
    ensures id < |s.h.dicts| && id in Owners(s)
  {
    assert s.held[id] <= Owners(s)[id];
  }

  lemma PutHeldKeeps(s: Stack, id: DictId, n: Name, t: Token)
    requires Inv(s) && id in s.held
    ensures id < |s.h.dicts| && Inv(Put(s, id, n, t)) && (Coherent(s) ==> Coherent(Put(s, id, n, t)))
  {
    HeldIsAlive(s, id);
    PutKeeps(s, id, n, t);
  }

  lemma ClearHeldKeeps(s: Stack, id: DictId)
    requires Inv(s) && id in s.held
    ensures id < |s.h.dicts| && Inv(Cleardict(s, id)) && (Coherent(s) ==> Coherent(Cleardict(s, id)))
  {
    HeldIsAlive(s, id);
    CleardictKeeps(s, id);
  }

  /** The dictionary goes on top; the caches forget the names it binds. */
  function PushFront(s: Stack, id: DictId): Stack
    requires id < |s.h.dicts|
  {
    s.(h := Enter(s.h, id, 1), cache := s.cache - Keys(s.h, id), d := [id] + s.d)
  }

  lemma PushFrontOwners(s: Stack, id: DictId)
    requires id < |s.h.dicts|
    ensures
      var t := PushFront(s, id);
      Owners(t) == Owners(s) + multiset{id} && multiset(t.d) == multiset(s.d) + multiset{id}
      && s.held + multiset(s.d) <= Owners(s)
  {
    var t := PushFront(s, id);
    assert multiset(t.d) == multiset{id} + multiset(s.d);
    hide ListingOwners;
  }

  lemma PushFrontCounted(s: Stack, id: DictId)
    requires Counted(s) && s.snapshot.None? && id in s.held && id < |s.h.dicts| && id in Owners(s)
    ensures Counted(PushFront(s, id)) && Same(PushFront(s, id).h, s.h, s.held + multiset(s.d))
  {
    EnterBalances(s.h, Owners(s), id, 1);
    PushFrontOwners(s, id);
    var t := PushFront(s, id);
    hide Owned, Balanced, Owners, Same, ListingOwners, Entries, View, Enter;
    FewerAreSame(t.h, s.h, s.held + multiset(s.d), Owners(s));
    EnteredIsMarked(t, s, id);
    hide *;
    CountedParts(t, s);
  }

  lemma EnteredIsMarked(t: Stack, s: Stack, id: DictId)
    requires MarksSuffice(s) && |t.h.dicts| == |s.h.dicts| && t.d == [id] + s.d
    requires forall j :: 0 <= j < |s.h.dicts| ==> t.h.dicts[j].marks == s.h.dicts[j].marks + multiset{id}[j]
    ensures MarksSuffice(t)
  {}

  ghost function Push(s: Stack, id: DictId): Stack
    requires Inv(s) && id in s.held
  {
    InvalidateKeeps(s);
    HeldIsAlive(Invalidate(s), id);
    PushFront(Invalidate(s), id)
  }

  lemma PushCounted(s: Stack, id: DictId)
    requires Inv(s) && id in s.held
    ensures Counted(Push(s, id)) && Same(Push(s, id).h, s.h, s.held + multiset(s.d))
    ensures Push(s, id).d == [id] + s.d && Push(s, id).base == s.base
    ensures Push(s, id).cache == s.cache - Keys(s.h, id) && Push(s, id).basecache == s.basecache
    ensures Push(s, id).held == s.held && Evolves(Push(s, id).arrays, s.arrays)
  {
    InvalidateKeeps(s);
    var a, all := Invalidate(s), s.held + multiset(s.d);
    HeldIsAlive(a, id);
    PushFrontCounted(a, id);
    assert all[id] >= s.held[id] > 0;
    SameEntries(a.h, s.h, all, id);
    hide Counted, Owners, View, Entries, Same;
    SameTrans(Push(s, id).h, a.h, s.h, all, all);
  }

  lemma SearchSame(g: Heap, h: Heap, d: seq<DictId>, n: Name)
    requires Same(g, h, multiset(d))
    ensures Search(g, d, n) == Search(h, d, n)
  {}

  /** The caches with a new top, once the names that it binds are forgotten. */
  lemma CachesBelow(t: Stack, s: Stack, id: DictId)
    requires Anchored(s) && BaseCoherent(s) && Same(t.h, s.h, multiset(s.d))
    requires t.d == [id] + s.d && t.base == s.base && t.basecache == s.basecache
    requires forall n :: n in t.cache ==> n !in Entries(t.h, id) && n in s.cache && t.cache[n] == s.cache[n]
    ensures Anchored(t) && BaseCoherent(t) && (Coherent(s) ==> Coherent(t))
  {
    forall n | Coherent(s) && n in t.cache ensures Search(t.h, t.d, n) == Some(t.cache[n]) {
      SearchSame(t.h, s.h, s.d, n);
      assert t.d[1..] == s.d;
    }
    if s.base.Some? { SameEntries(t.h, s.h, multiset(s.d), s.base.value); }
    hide View, Coherent, BaseCoherent, Search;
    forall j | j in s.d ensures j in t.d && Entries(t.h, j) == Entries(s.h, j) {
      assert j in multiset(s.d);
    }
    hide Same, Entries;
    AnchoredFrame(t, s);
  }

  lemma PushKeeps(s: Stack, id: DictId)
    requires Inv(s) && id in s.held
    ensures Inv(Push(s, id)) && Push(s, id).d == [id] + s.d && Push(s, id).base == s.base
    ensures Push(s, id).held == s.held && Evolves(Push(s, id).arrays, s.arrays)
    ensures Coherent(s) ==> Coherent(Push(s, id))
  {
    PushCounted(s, id);
    var t, all := Push(s, id), s.held + multiset(s.d);
    assert all[id] >= s.held[id] > 0;
    hide Counted, Push, Coherent, BaseCoherent, Anchored, View;
    FewerAreSame(t.h, s.h, multiset(s.d), all);
    SameEntries(t.h, s.h, all, id);
    hide Same, Entries;
    CachesBelow(t, s, id);
  }

  lemma SameEntries(g: Heap, h: Heap, ids: multiset<DictId>, id: DictId)
    requires Same(g, h, ids) && id in ids
    ensures Entries(g, id) == Entries(h, id) && View(g, id) == View(h, id)
  {
  }

  // ---- pop ----

  /** The caches forget the names that the top binds; the top goes, and may be freed. */
  function PopFront(s: Stack): Stack
    requires s.d != [] && s.d[0] < |s.h.dicts| && s.h.dicts[s.d[0]].refs > 0
  {
    var top := s.d[0];
    s.(h := Leave(s.h, top), cache := s.cache - Keys(s.h, top), d := s.d[1..])
  }

  lemma PopFrontOwners(s: Stack)
    requires s.d != []
    ensures
      var t := s.(d := s.d[1..]);
      && multiset(s.d) == multiset(t.d) + multiset{s.d[0]} && Owners(t) == Owners(s) - multiset{s.d[0]}
      && t.held + multiset(t.d) <= Owners(t)
  {
    assert s.d == [s.d[0]] + s.d[1..];
    hide ListingOwners;
  }

  lemma PopFrontCounted(s: Stack)
    requires Counted(s) && s.snapshot.None? && s.d != []
    requires s.d[0] < |s.h.dicts| && s.h.dicts[s.d[0]].refs > 0 && s.d[0] in Owners(s)
    ensures Counted(PopFront(s)) && Same(PopFront(s).h, s.h, s.held + multiset(s.d[1..]))
  {
    var t, top, few := PopFront(s), s.d[0], s.held + multiset(s.d[1..]);
    LeaveBalances(s.h, Owners(s), top);
    PopFrontOwners(s);
    assert Owners(t) == Owners(s.(d := s.d[1..])) && Counted(s);
    hide Owned, Balanced, Owners, Same, ListingOwners, Entries, View, Counted, Leave;
    FewerAreSame(t.h, s.h, few, Owners(t));
    LeftIsMarked(t, s);
    hide *;
    CountedParts(t, s);
  }

  lemma LeftIsMarked(t: Stack, s: Stack)
    requires MarksSuffice(s) && |t.h.dicts| == |s.h.dicts| && s.d != [] && t.d == s.d[1..]
    requires forall j :: 0 <= j < |s.h.dicts| ==> t.h.dicts[j].marks == s.h.dicts[j].marks - multiset{s.d[0]}[j]
    ensures MarksSuffice(t)
  {
    assert s.d == [s.d[0]] + s.d[1..];
  }

  ghost function Pop(s: Stack): Stack
    requires Inv(s) && s.d != []
  {
    InvalidateKeeps(s);
    ListedAreAlive(Invalidate(s), s.d[0]);
    PopFront(Invalidate(s))
  }

  lemma PopCounted(s: Stack)
    requires Inv(s) && s.d != []
    ensures Counted(Pop(s)) && Same(Pop(s).h, s.h, s.held + multiset(s.d[1..]))
    ensures Pop(s).d == s.d[1..] && Pop(s).base == s.base
    ensures Pop(s).cache == s.cache - Keys(s.h, s.d[0]) && Pop(s).basecache == s.basecache
    ensures Evolves(Pop(s).arrays, s.arrays)
  {
    InvalidateKeeps(s);
    var a := Invalidate(s);
    ListedAreAlive(a, s.d[0]);
    var t := PopFront(a);
    assert t.arrays == a.arrays;
    assert Pop(s) == t && t.cache == a.cache - Entries(a.h, s.d[0]).Keys && Same(a.h, s.h, s.held + multiset(s.d));
    hide *;
    PopFrontCounted(a);
    PopFrame(t, a, s);
  }

  lemma PopFrame(t: Stack, a: Stack, s: Stack)
    requires s.d != [] && Same(a.h, s.h, s.held + multiset(s.d))
    requires Same(t.h, a.h, s.held + multiset(s.d[1..]))
    ensures Entries(a.h, s.d[0]) == Entries(s.h, s.d[0]) && Same(t.h, s.h, s.held + multiset(s.d[1..]))
  {
    assert s.d[0] in multiset(s.d) && s.d == [s.d[0]] + s.d[1..];
    SameEntries(a.h, s.h, s.held + multiset(s.d), s.d[0]);
    hide Entries, View, Same;
    SameTrans(t.h, a.h, s.h, s.held + multiset(s.d[1..]), s.held + multiset(s.d));
  }

  /** The caches without the old top, once the names that it bound are forgotten. */
  lemma CachesAbove(t: Stack, s: Stack)
    requires Anchored(s) && BaseCoherent(s) && |s.d| > 1 && Same(t.h, s.h, multiset(s.d[1..]))
    requires t.d == s.d[1..] && t.base == s.base && t.basecache == s.basecache
    requires forall n :: n in t.cache ==> n !in Entries(s.h, s.d[0]) && n in s.cache && t.cache[n] == s.cache[n]
    ensures Anchored(t) && BaseCoherent(t) && (Coherent(s) ==> Coherent(t))
  {
    forall n | Coherent(s) && n in t.cache ensures Search(t.h, t.d, n) == Some(t.cache[n]) {
      SearchSame(t.h, s.h, t.d, n);
    }
    if s.base.Some? {
      assert s.base.value == t.d[|t.d| - 1];
      SameEntries(t.h, s.h, multiset(t.d), s.base.value);
    }
    hide View, Coherent, BaseCoherent, Search;
    forall j | j in t.d ensures Entries(t.h, j) == Entries(s.h, j) {
      assert j in multiset(t.d);
    }
    assert forall j :: j in s.d ==> j == s.d[0] || j in t.d;
    hide Same, Entries;
    AnchoredFrame(t, s);
  }

  lemma PopKeeps(s: Stack)
    requires Inv(s) && |s.d| > 1
    ensures Inv(Pop(s)) && Pop(s).d == s.d[1..] && Pop(s).base == s.base
    ensures Evolves(Pop(s).arrays, s.arrays) && (Coherent(s) ==> Coherent(Pop(s)))
  {
    PopCounted(s);
    var t, few := Pop(s), s.held + multiset(s.d[1..]);
    hide Counted, Pop, Coherent, BaseCoherent, Anchored, View;
    FewerAreSame(t.h, s.h, multiset(s.d[1..]), few);
    hide Same;
    CachesAbove(t, s);
  }

  // ---- clear ----

  lemma ClearOwners(a: Stack)
    ensures Owners(a.(d := [])) == Owners(a) - multiset(a.d) && a.held <= Owners(a.(d := []))
    ensures multiset(a.d) <= Owners(a)
  {
    hide ListingOwners;
  }

  /** Everything goes. The marks stay as they are. */
  ghost function PopAll(a: Stack): Stack
    requires Counted(a)
  {
    ClearOwners(a);
    a.(h := ReleaseAll(a.h, a.d, Owners(a)), d := [], base := None, cache := map[], basecache := map[])
  }

  lemma PopAllCounted(a: Stack)
    requires Counted(a) && a.snapshot.None?
    ensures
      var t := PopAll(a);
      && Inv(t) && Owners(t) <= Owners(a) && Same(t.h, a.h, Owners(t)) && |t.h.dicts| == |a.h.dicts|
      && t == a.(h := t.h, d := [], base := None, cache := map[], basecache := map[])
  {
    hide Owned, Balanced, Same, View, Entries, ReleaseAll, ListingOwners, ArraysBalanced, SnapshotFresh;
    var t := PopAll(a);
    ClearOwners(a);
    assert Owners(t) == Owners(a.(d := []));
    hide Owners, PopAll;
    EmptyIsMarked(t, a);
    hide MarksSuffice;
    CountedParts(t, a);
  }

  lemma EmptyIsMarked(t: Stack, a: Stack)
    requires MarksSuffice(a) && t.d == [] && |t.h.dicts| == |a.h.dicts|
    requires forall j :: 0 <= j < |a.h.dicts| ==> t.h.dicts[j].marks == a.h.dicts[j].marks
    ensures MarksSuffice(t)
  {}

  ghost function Clear(s: Stack): Stack
    requires Inv(s)
  {
    InvalidateKeeps(s);
    PopAll(Invalidate(s))
  }

  lemma ClearKeeps(s: Stack)
    requires Inv(s)
    ensures
      var t := Clear(s);
      && Inv(t) && t.d == [] && t.base.None? && t.cache == map[] && t.basecache == map[] && t.snapshot.None?
      && t.held == s.held && t.heldArrays == s.heldArrays && |t.arrays| == |s.arrays|
      && |t.h.dicts| == |s.h.dicts| && Same(t.h, s.h, Owners(t)) && Evolves(t.arrays, s.arrays)
      && (forall a :: a in s.heldArrays && a < |s.arrays| ==> t.arrays[a].items == s.arrays[a].items)
      && Coherent(t)
  {
    InvalidateKeeps(s);
    var a := Invalidate(s);
    assert Clear(s) == PopAll(a);
    hide Owners, Owned, Balanced, Same, Invalidate, Counted, Inv, PopAll, Clear;
    PopAllCounted(a);
    SameTrans(Clear(s).h, a.h, s.h, Owners(Clear(s)), Owners(a));
  }
}
