/** The operations of the dictionary stack. Each keeps the invariant. */
module DictOps {
  import opened Tokens
  import opened DictHeap
  import opened DictStack

  lemma {:induction false} SearchFrame(g: Heap, h: Heap, d: seq<DictId>, n: Name)
    requires forall i :: 0 <= i < |d| ==>
      (n in Entries(g, d[i]) <==> n in Entries(h, d[i]))
      && (n in Entries(g, d[i]) ==> Entries(g, d[i])[n] == Entries(h, d[i])[n])
    ensures Search(g, d, n) == Search(h, d, n)
    decreases |d|
  {
    if d != [] {
      SearchFrame(g, h, d[1..], n);
    }
  }

  /** Where the listed dictionaries and the caches stay, their relation stays. */
  lemma CachesFrame(t: Stack, s: Stack)
    requires BaseCoherent(s) && Anchored(s) && t.d == s.d && t.base == s.base
    requires t.cache == s.cache && t.basecache == s.basecache && Same(t.h, s.h, multiset(s.d))
    ensures BaseCoherent(t) && Anchored(t) && (Coherent(s) ==> Coherent(t))
  {
    hide *;
    EntriesOf(t.h, s.h, s.d);
    BaseFrame(t, s);
    AnchoredStays(t, s);
    if Coherent(s) { CoherentFrame(t, s); }
  }

  lemma EntriesOf(g: Heap, h: Heap, d: seq<DictId>)
    requires Same(g, h, multiset(d))
    ensures forall id :: id in d ==> Entries(g, id) == Entries(h, id)
  {
    forall id | id in d ensures Entries(g, id) == Entries(h, id) {
      assert id in multiset(d);
    }
  }

  lemma BaseFrame(t: Stack, s: Stack)
    requires BaseCoherent(s) && t.d == s.d && t.base == s.base && t.basecache == s.basecache
    requires forall id :: id in s.d ==> Entries(t.h, id) == Entries(s.h, id)
    ensures BaseCoherent(t)
  {
    hide Entries;
  }

  lemma CoherentFrame(t: Stack, s: Stack)
    requires Coherent(s) && t.d == s.d && t.cache == s.cache
    requires forall id :: id in s.d ==> Entries(t.h, id) == Entries(s.h, id)
    ensures Coherent(t)
  {
    hide Entries, Search;
    forall n | n in t.cache ensures Search(t.h, t.d, n) == Some(t.cache[n]) {
      SearchFrame(t.h, s.h, s.d, n);
    }
  }

  lemma AnchoredStays(t: Stack, s: Stack)
    requires Anchored(s) && t.d == s.d && t.cache == s.cache
    requires forall id :: id in s.d ==> Entries(t.h, id) == Entries(s.h, id)
    ensures Anchored(t)
  {
    hide Entries;
    AnchoredFrame(t, s);
  }

  /** A pointer keeps its anchor if the dictionary that binds it stays and keeps it. */
  lemma AnchoredFrame(t: Stack, s: Stack)
    requires Anchored(s)
    requires forall n :: n in t.cache ==> n in s.cache && t.cache[n] == s.cache[n]
    requires forall n, id :: n in t.cache && Anchor(s.h, s.d, n, t.cache[n], id) ==> id in t.d
    requires forall n, id :: n in t.cache && Anchor(s.h, s.d, n, t.cache[n], id) ==>
               n in Entries(t.h, id) && Entries(t.h, id)[n] == t.cache[n]
    ensures Anchored(t)
  {
    forall n | n in t.cache ensures exists id :: Anchor(t.h, t.d, n, t.cache[n], id) {
      var id :| Anchor(s.h, s.d, n, s.cache[n], id);
      assert Anchor(t.h, t.d, n, t.cache[n], id);
    }
  }

  /** The caches own nothing. */
  lemma CountedFrame(t: Stack, s: Stack)
    requires Counted(s) && t == s.(cache := t.cache, basecache := t.basecache)
    ensures Counted(t)
  {
    assert Owners(t) == Owners(s);
    hide Owned, Balanced, Owners;
  }

  // ---- looking up ----

  /** The pointer that `lookup`, `known` and `bind` get, and the cache afterwards. */
  function Find(s: Stack, n: Name): (Stack, Option<NodeId>) {
    if n in s.cache then (s, Some(s.cache[n]))
    else
      var p := Search(s.h, s.d, n);
      (if p.Some? then s.(cache := s.cache[n := p.value]) else s, p)
  }

  /** A lookup keeps the invariant and changes nothing but the cache. */
  lemma FindKeeps(s: Stack, n: Name)
    requires Inv(s)
    ensures Inv(Find(s, n).0) && Find(s, n).0 == s.(cache := Find(s, n).0.cache)
    ensures Coherent(s) ==> Coherent(Find(s, n).0)
  {
    var t := Find(s, n).0;
    CountedFrame(t, s);
    FindCaches(s, n);
    assert t == s.(cache := t.cache);
    hide Find, Coherent, BaseCoherent, Anchored, Counted;
  }

  lemma FindCaches(s: Stack, n: Name)
    requires Anchored(s) && BaseCoherent(s)
    ensures Anchored(Find(s, n).0) && BaseCoherent(Find(s, n).0)
    ensures Coherent(s) ==> Coherent(Find(s, n).0)
  {
    SearchIsAnchor(s.h, s.d, n);
    hide Search, Entries, Anchor;
  }

  /** Coherent or not, a lookup never gives a dangling pointer: it gives the node of n in some
      dictionary on the stack, and it gives one exactly when there is one. */
  lemma FindIsAlive(s: Stack, n: Name)
    requires Inv(s)
    ensures
      var p := Find(s, n).1;
      && (p.Some? ==> p.value in s.h.nodes && exists id :: Anchor(s.h, s.d, n, p.value, id))
      && (p.Some? <==> Search(s.h, s.d, n).Some?)
  {
    SearchIsAnchor(s.h, s.d, n);
    var p := Find(s, n).1;
    assert p.Some? ==> exists id :: Anchor(s.h, s.d, n, p.value, id);
    hide Anchored, Find, Search, BaseCoherent;
    if p.Some? {
      var id :| Anchor(s.h, s.d, n, p.value, id);
      OwnedOf(s);
    }
  }

  /** With coherent caches a lookup is the plain search. */
  lemma FindIsSearch(s: Stack, n: Name)
    requires Inv(s) && Coherent(s)
    ensures
      var p := Find(s, n).1;
      && p == Search(s.h, s.d, n) && (p.Some? ==> p.value in s.h.nodes)
      && Lookup(Meaning(s.h, s.d), n) == if p.Some? then Some(s.h.nodes[p.value]) else None
  {
    SearchIsLookup(s.h, s.d, n);
  }

  /** Searches the base dictionary only; a find is written into both caches. */
  function Baselookup(s: Stack, n: Name): (Stack, Option<NodeId>) {
    if s.base.None? then (s, None)
    else if n in s.basecache then (s, Some(s.basecache[n]))
    else if n in Entries(s.h, s.base.value) then
      var p := Entries(s.h, s.base.value)[n];
      (s.(cache := s.cache[n := p], basecache := s.basecache[n := p]), Some(p))
    else (s, None)
  }

  /** `baselookup` gives the base dictionary's own binding. */
  lemma BaselookupIsBase(s: Stack, n: Name)
    requires Counted(s) && BaseCoherent(s)
    ensures
      var (t, p) := Baselookup(s, n);
      && Counted(t) && BaseCoherent(t) && t == s.(cache := t.cache, basecache := t.basecache)
      && p == (if s.base.Some? && n in Entries(s.h, s.base.value)
               then Some(Entries(s.h, s.base.value)[n]) else None)
      && (p.Some? ==> p.value in s.h.nodes)
  {
    hide Counted, Owned;
    CountedFrame(Baselookup(s, n).0, s);
    OwnedOf(s);
    if s.base.Some? { NodesOf(s.h, s.base.value); }
  }

  lemma NodesOf(h: Heap, id: DictId)
    requires Owned(h)
    ensures forall n :: n in Entries(h, id) ==> Entries(h, id)[n] in h.nodes
  {}

  /** No dictionary above the topmost occurrence of `base` binds n. */
  predicate Unshadowed(h: Heap, d: seq<DictId>, base: DictId, n: Name) {
    d != [] && d[0] != base ==> n !in Entries(h, d[0]) && Unshadowed(h, d[1..], base, n)
  }

  lemma {:induction false} SearchFindsBase(h: Heap, d: seq<DictId>, base: DictId, n: Name)
    requires Owned(h) && base in d && n in Entries(h, base)
    ensures Search(h, d, n) == Some(Entries(h, base)[n]) <==> Unshadowed(h, d, base, n)
    decreases |d|
  {
    if d[0] != base {
      SearchFindsBase(h, d[1..], base, n);
    }
  }

  /** It keeps the invariant in every state. */
  lemma BaselookupKeeps(s: Stack, n: Name)
    requires Inv(s)
    ensures Inv(Baselookup(s, n).0)
  {
    BaselookupIsBase(s, n);
    var t := Baselookup(s, n).0;
    forall m | m in t.cache ensures exists id :: Anchor(t.h, t.d, m, t.cache[m], id) {
      if m in s.cache && t.cache[m] == s.cache[m] {
        var id :| Anchor(s.h, s.d, m, s.cache[m], id);
        assert Anchor(t.h, t.d, m, t.cache[m], id);
      } else {
        assert Anchor(t.h, t.d, m, t.cache[m], s.base.value);
      }
    }
  }

  /** A `baselookup` that finds n outside the second cache, and so writes the first. */
  predicate Fills(s: Stack, n: Name) {
    s.base.Some? && n !in s.basecache && n in Entries(s.h, s.base.value)
  }

  /** `baselookup` may leave a pointer in the first cache that the plain search would not
      find. It does not exactly when it changes nothing or nothing above the base binds n. */
  lemma BaselookupCoherent(s: Stack, n: Name)
    requires Inv(s) && Coherent(s)
    ensures Coherent(Baselookup(s, n).0) <==> (Fills(s, n) ==> Unshadowed(s.h, s.d, s.base.value, n))
  {
    var t := Baselookup(s, n).0;
    hide Counted, BaseCoherent, Anchored;
    if Fills(s, n) {
      assert s.base.value in s.d && Owned(s.h) by { BaseIsListed(s); }
      SearchFindsBase(s.h, s.d, s.base.value, n);
      assert n in t.cache && t.cache[n] == Entries(s.h, s.base.value)[n];
    }
  }

  lemma BaseIsListed(s: Stack)
    requires Inv(s) && s.base.Some?
    ensures s.base.value in s.d && Owned(s.h)
  {
  }

  /** Dictionary 0 is the base and dictionary 1 lies above it, both bind `n`, and neither cache
      knows it. */
  function BoundTwice(n: Name): Stack {
    var h := Heap(map[0 := Int(0), 1 := Int(1)], 2,
                  [Dict(map[n := 0], 1, 1, true), Dict(map[n := 1], 1, 1, true)]);
    Stack(h, [], multiset{}, multiset{}, [1, 0], Some(0), map[], map[], None)
  }

  lemma BoundTwiceIsValid(n: Name)
    ensures Inv(BoundTwice(n)) && Coherent(BoundTwice(n))
  {
    var s := BoundTwice(n);
    assert multiset(s.d) == multiset{1, 0};
    assert Owners(s) == multiset{0, 1};
    BoundTwiceIsCoherent(n);
    hide Owners, Owned, Coherent, BaseCoherent;
    assert Balanced(s.h, Owners(s));
    hide Balanced;
  }

  lemma BoundTwiceIsCoherent(n: Name)
    ensures var s := BoundTwice(n);
            Owned(s.h) && Coherent(s) && BaseCoherent(s)
  {}

  /** An example: after `baselookup` the cached lookup gives the base's binding instead of the
      upper one. */
  lemma BaselookupSpoilsLookup(n: Name)
    ensures var s := BoundTwice(n);
            && Inv(s) && Coherent(s) && Search(s.h, s.d, n) == Some(1)
            && Find(Baselookup(s, n).0, n).1 == Some(0)
  {
    BoundTwiceIsValid(n);
    hide Inv;
  }

  // ---- changing a dictionary ----

  lemma ChangeKeepsCounted(t: Stack, s: Stack, id: DictId, v: Dictionary)
    requires Counted(s) && id in Owners(s) && id < |s.h.dicts|
    requires OnlyChanges(t.h, s.h, id, v) && Owned(t.h)
    requires t == s.(h := t.h, cache := t.cache, basecache := t.basecache)
    ensures Counted(t)
  {
    ChangeBalances(t.h, s.h, id, v, Owners(s));
    assert Owners(t) == Owners(s);
    hide Owned, Balanced, Owners, View, Entries;
  }

  /** A name that the changed dictionary treats as before is found where it was. */
  lemma SearchElsewhere(g: Heap, h: Heap, d: seq<DictId>, id: DictId, v: Dictionary, m: Name)
    requires id < |h.dicts| && OnlyChanges(g, h, id, v)
    requires id in d ==> (m in Entries(g, id) <==> m in Entries(h, id))
    ensures Search(g, d, m) == Search(h, d, m)
  {
    forall i | 0 <= i < |d|
      ensures m in Entries(g, d[i]) <==> m in Entries(h, d[i])
      ensures m in Entries(g, d[i]) ==> Entries(g, d[i])[m] == Entries(h, d[i])[m]
    {
      assert d[i] == id || Entries(g, d[i]) == Entries(h, d[i]);
    }
    hide OnlyChanges, Entries;
    SearchFrame(g, h, d, m);
  }

  /** The slot that `insert` returns. */
  function SlotOf(h: Heap, id: DictId, n: Name): NodeId {
    if n in Entries(h, id) then Entries(h, id)[n] else 0
  }

  /** Binds n in the top dictionary; the pointer goes into the cache. */
  function Def(s: Stack, n: Name, t: Token): Stack
    requires s.d != [] && s.d[0] < |s.h.dicts|
  {
    var g := Insert(s.h, s.d[0], n, t);
    s.(h := g, cache := s.cache[n := SlotOf(g, s.d[0], n)])
  }

  /** A pointer that the plain search finds, or an old one under a name not touched. */
  ghost predicate Vouched(u: Stack, s: Stack, id: DictId, names: set<Name>, m: Name)
    requires m in u.cache
  {
    || Search(u.h, u.d, m) == Some(u.cache[m])
    || (m in s.cache && u.cache[m] == s.cache[m] && (m !in names || id !in s.d))
  }

  /** Outside `names` the dictionary has the keys it had. */
  ghost predicate KeysChangeIn(g: Heap, h: Heap, id: DictId, names: set<Name>) {
    forall m :: m !in names ==> (m in Entries(g, id) <==> m in Entries(h, id))
  }

  lemma CacheAfterChange(s: Stack, u: Stack, id: DictId, v: Dictionary, names: set<Name>)
    requires Anchored(s) && u.d == s.d && id < |s.h.dicts| && OnlyChanges(u.h, s.h, id, v)
    requires KeysChangeIn(u.h, s.h, id, names)
    requires forall m :: m in u.cache ==> Vouched(u, s, id, names, m)
    ensures Anchored(u) && (Coherent(s) ==> Coherent(u))
  {
    forall m | m in u.cache ensures exists j :: Anchor(u.h, u.d, m, u.cache[m], j) {
      AnchoredAfterChange(s, u, id, v, names, m);
    }
    if Coherent(s) { CoherentAfterChange(s, u, id, v, names); }
  }

  lemma AnchoredAfterChange(s: Stack, u: Stack, id: DictId, v: Dictionary, names: set<Name>, m: Name)
    requires Anchored(s) && u.d == s.d && id < |s.h.dicts| && OnlyChanges(u.h, s.h, id, v)
    requires KeysChangeIn(u.h, s.h, id, names)
    requires m in u.cache && Vouched(u, s, id, names, m)
    ensures exists j :: Anchor(u.h, u.d, m, u.cache[m], j)
  {
    if Search(u.h, u.d, m) == Some(u.cache[m]) {
      SearchIsAnchor(u.h, u.d, m);
    } else {
      var j :| Anchor(s.h, s.d, m, s.cache[m], j);
      hide Search, View;
      assert Anchor(u.h, u.d, m, u.cache[m], j);
    }
  }

  lemma CoherentAfterChange(s: Stack, u: Stack, id: DictId, v: Dictionary, names: set<Name>)
    requires Coherent(s) && u.d == s.d && id < |s.h.dicts| && OnlyChanges(u.h, s.h, id, v)
    requires KeysChangeIn(u.h, s.h, id, names)
    requires forall m :: m in u.cache ==> Vouched(u, s, id, names, m)
    ensures Coherent(u)
  {
    forall m | m in u.cache ensures Search(u.h, u.d, m) == Some(u.cache[m]) {
      if Search(u.h, u.d, m) != Some(u.cache[m]) {
        assert Vouched(u, s, id, names, m);
        assert m !in names ==> (m in Entries(u.h, id) <==> m in Entries(s.h, id));
        hide OnlyChanges, Entries, Search, View, KeysChangeIn;
        SearchElsewhere(u.h, s.h, s.d, id, v, m);
      }
    }
  }

  lemma BasecacheAfterChange(s: Stack, u: Stack, id: DictId, v: Dictionary)
    requires BaseCoherent(s) && u.d == s.d && u.base == s.base
    requires id < |s.h.dicts| && OnlyChanges(u.h, s.h, id, v)
    requires forall m :: m in u.basecache && s.base.Some? ==>
      if m in s.basecache then u.basecache[m] == s.basecache[m] && (s.base.value == id ==> m in Entries(u.h, id))
      else m in Entries(u.h, s.base.value) && u.basecache[m] == Entries(u.h, s.base.value)[m]
    requires s.base.None? ==> u.basecache == map[]
    ensures BaseCoherent(u)
  {}

  lemma DefKeeps(s: Stack, n: Name, t: Token)
    requires Inv(s) && s.d != []
    ensures s.d[0] < |s.h.dicts|
    ensures Inv(Def(s, n, t)) && (Coherent(s) ==> Coherent(Def(s, n, t)))
    ensures OnlyChanges(Def(s, n, t).h, s.h, s.d[0], View(s.h, s.d[0])[n := t])
  {
    hide Counted, Coherent, BaseCoherent, Anchored, OnlyChanges, View, KeysChangeIn, Insert;
    var id := s.d[0];
    ListedAreAlive(s, id);
    OwnedOf(s);
    InsertKeeps(s.h, id, n, t);
    InsertKeepsKeys(s.h, id, n, t);
    var u, v := Def(s, n, t), View(s.h, id)[n := t];
    assert Search(u.h, u.d, n) == Some(u.cache[n]);
    hide Entries, Search;
    ChangeKeepsCounted(u, s, id, v);
    CacheAfterChange(s, u, id, v, {n});
    DefKeepsBasecache(s, u, id, v);
  }

  lemma OwnedOf(s: Stack)
    requires Counted(s)
    ensures Owned(s.h)
  {
  }

  /** No key goes when a name is bound. */
  lemma DefKeepsBasecache(s: Stack, u: Stack, id: DictId, v: Dictionary)
    requires BaseCoherent(s) && u.d == s.d && u.base == s.base && u.basecache == s.basecache
    requires id < |s.h.dicts| && OnlyChanges(u.h, s.h, id, v)
    requires forall m :: m in Entries(s.h, id) ==> m in Entries(u.h, id)
    ensures BaseCoherent(u)
  {}

  /** Unbinds n in the top dictionary, which must bind it. */
  function Undef(s: Stack, n: Name): Stack
    requires s.d != [] && s.d[0] < |s.h.dicts| && n in s.h.dicts[s.d[0]].entries
  {
    s.(h := Erase(s.h, s.d[0], n), cache := s.cache - {n}, basecache := s.basecache - {n})
  }

  lemma UndefKeeps(s: Stack, n: Name)
    requires Inv(s) && s.d != [] && n in Entries(s.h, s.d[0])
    ensures s.d[0] < |s.h.dicts|
    ensures Inv(Undef(s, n)) && (Coherent(s) ==> Coherent(Undef(s, n)))
    ensures OnlyChanges(Undef(s, n).h, s.h, s.d[0], View(s.h, s.d[0]) - {n})
  {
    var id := s.d[0];
    ListedAreAlive(s, id);
    EraseKeeps(s.h, id, n);
    var u, v := Undef(s, n), View(s.h, id) - {n};
    assert KeysChangeIn(u.h, s.h, id, {n});
    assert forall m :: m in u.basecache && s.base == Some(id) ==> m in Entries(u.h, id);
    hide OnlyChanges, Entries, Search, View, KeysChangeIn, Counted;
    ChangeKeepsCounted(u, s, id, v);
    CacheAfterChange(s, u, id, v, {n});
    BasecacheAfterChange(s, u, id, v);
  }

  lemma InsertKeepsKeys(h: Heap, id: DictId, n: Name, t: Token)
    requires id < |h.dicts|
    ensures
      var g := Insert(h, id, n, t);
      && KeysChangeIn(g, h, id, {n})
      && n in Entries(g, id) && SlotOf(g, id, n) == Entries(g, id)[n]
      && (n in Entries(h, id) ==> Entries(g, id)[n] == Entries(h, id)[n])
      && forall m :: m in Entries(h, id) ==> m in Entries(g, id)
  {
  }

  lemma BasecacheIsBase(s: Stack)
    requires BaseCoherent(s)
    ensures forall m :: m in s.basecache ==>
      && s.base.Some? && m in Entries(s.h, s.base.value)
      && s.basecache[m] == Entries(s.h, s.base.value)[m]
  {}

  /** Binds n in the base dictionary; the pointer goes into the second cache only. */
  function Basedef(s: Stack, n: Name, t: Token): Stack
    requires s.base.Some? && s.base.value < |s.h.dicts|
  {
    var g := Insert(s.h, s.base.value, n, t);
    s.(h := g, cache := s.cache - {n}, basecache := s.basecache[n := SlotOf(g, s.base.value, n)])
  }

  lemma BasedefKeeps(s: Stack, n: Name, t: Token)
    requires Inv(s) && s.base.Some?
    ensures s.base.value < |s.h.dicts|
    ensures Inv(Basedef(s, n, t)) && (Coherent(s) ==> Coherent(Basedef(s, n, t)))
    ensures OnlyChanges(Basedef(s, n, t).h, s.h, s.base.value, View(s.h, s.base.value)[n := t])
  {
    hide Counted, Coherent, BaseCoherent, Anchored, OnlyChanges, View, KeysChangeIn, Insert, Search;
    var id := s.base.value;
    BaseIsListed(s);
    BasecacheIsBase(s);
    ListedAreAlive(s, id);
    InsertKeeps(s.h, id, n, t);
    InsertKeepsKeys(s.h, id, n, t);
    var u, v := Basedef(s, n, t), View(s.h, id)[n := t];
    hide Entries;
    ChangeKeepsCounted(u, s, id, v);
    CacheAfterChange(s, u, id, v, {n});
    BasecacheAfterChange(s, u, id, v);
  }

  /** `put` binds n in any dictionary; the caches forget n if the dictionary is marked. */
  function Put(s: Stack, id: DictId, n: Name, t: Token): Stack
    requires id < |s.h.dicts|
  {
    var u := if s.h.dicts[id].marks > 0 then s.(cache := s.cache - {n}, basecache := s.basecache - {n}) else s;
    u.(h := Insert(s.h, id, n, t))
  }

  /** A dictionary without marks is not on the stack: no invalidation is skipped wrongly. */
  lemma UnmarkedIsUnlisted(s: Stack, id: DictId)
    requires Inv(s) && id < |s.h.dicts| && s.h.dicts[id].marks <= 0
    ensures id !in s.d && (s.base.Some? ==> s.base.value != id)
  {}

  lemma PutKeeps(s: Stack, id: DictId, n: Name, t: Token)
    requires Inv(s) && id < |s.h.dicts| && id in Owners(s)
    ensures Inv(Put(s, id, n, t)) && (Coherent(s) ==> Coherent(Put(s, id, n, t)))
    ensures OnlyChanges(Put(s, id, n, t).h, s.h, id, View(s.h, id)[n := t])
  {
    hide Coherent, BaseCoherent, Anchored, OnlyChanges, View, KeysChangeIn, Insert, Search;
    if s.h.dicts[id].marks <= 0 { UnmarkedIsUnlisted(s, id); }
    OwnedOf(s);
    hide Counted;
    BasecacheIsBase(s);
    InsertKeeps(s.h, id, n, t);
    InsertKeepsKeys(s.h, id, n, t);
    var u, v := Put(s, id, n, t), View(s.h, id)[n := t];
    hide Entries;
    ChangeKeepsCounted(u, s, id, v);
    CacheAfterChange(s, u, id, v, {n});
    BasecacheAfterChange(s, u, id, v);
  }

  /** `cleardict` empties any dictionary; the caches forget its keys if it is marked. */
  function Cleardict(s: Stack, id: DictId): Stack
    requires id < |s.h.dicts|
  {
    var keys := Entries(s.h, id).Keys;
    var u := if s.h.dicts[id].marks > 0 then s.(cache := s.cache - keys, basecache := s.basecache - keys) else s;
    u.(h := EraseAll(s.h, id))
  }

  lemma CleardictKeeps(s: Stack, id: DictId)
    requires Inv(s) && id < |s.h.dicts| && id in Owners(s)
    ensures Inv(Cleardict(s, id)) && (Coherent(s) ==> Coherent(Cleardict(s, id)))
    ensures OnlyChanges(Cleardict(s, id).h, s.h, id, map[])
  {
    EraseAllChanges(s.h, id);
    var u, keys := Cleardict(s, id), Entries(s.h, id).Keys;
    if s.h.dicts[id].marks <= 0 { UnmarkedIsUnlisted(s, id); }
    assert KeysChangeIn(u.h, s.h, id, keys);
    assert forall m :: m in u.basecache ==> s.base != Some(id);
    hide OnlyChanges, Entries, Search, View, KeysChangeIn, Counted;
    ChangeKeepsCounted(u, s, id, map[]);
    CacheAfterChange(s, u, id, map[], keys);
    BasecacheAfterChange(s, u, id, map[]);
  }
}
