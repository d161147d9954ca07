/** The dictionary stack object. Its methods work step by step on the fields; their contracts
    speak of the operations in `DictOps`, `DictMoves` and `DictSnapshot`. */
module DictStackObject {
  import opened Tokens
  import opened DictHeap
  import opened DictStack
  import opened DictOps
  import opened DictMoves
  import opened DictSnapshot
  import opened DictRuns

  class DictionaryStack {
    var h: Heap
    var arrays: seq<Listing>
    var held: multiset<DictId>
    var heldArrays: multiset<ArrayId>
    var d: seq<DictId>
    var base: Option<DictId>
    var cache: map<Name, NodeId>
    var basecache: map<Name, NodeId>
    var snapshot: Option<ArrayId>

    function S(): Stack
      reads this
    {
      Stack(h, arrays, held, heldArrays, d, base, cache, basecache, snapshot)
    }

    /** An empty stack over a heap of dictionaries that tokens outside refer to. */
    constructor (h: Heap, held: multiset<DictId>)
      requires Owned(h) && Balanced(h, held) && forall x :: x in h.dicts ==> x.marks >= 0
      ensures Inv(S()) && Coherent(S()) && d == [] && this.h == h && this.held == held
    {
      this.h, this.held := h, held;
      arrays, heldArrays, d, base := [], multiset{}, [], None;
      cache, basecache, snapshot := map[], map[], None;
      new;
      assert Owners(S()) == held;
      hide Owned, Balanced, Owners;
    }

    // ---- the caches ----

    method ClearTokenFromCache(n: Name)
      modifies this`cache
      ensures cache == old(cache) - {n}
    {
      cache := cache - {n};
    }

    method ClearTokenFromBasecache(n: Name)
      modifies this`basecache
      ensures basecache == old(basecache) - {n}
    {
      basecache := basecache - {n};
    }

    /** Forgets every key of the dictionary. */
    method ClearDictFromCache(id: DictId)
      modifies this`cache
      ensures cache == old(cache) - Keys(h, id)
    {
      var todo := Keys(h, id);
      while todo != {}
        invariant todo <= Keys(h, id)
        invariant cache == old(cache) - (Keys(h, id) - todo)
      {
        var n :| n in todo;
        ClearTokenFromCache(n);
        todo := todo - {n};
      }
    }

    method ClearDictFromBasecache(id: DictId)
      modifies this`basecache
      ensures basecache == old(basecache) - Keys(h, id)
    {
      var todo := Keys(h, id);
      while todo != {}
        invariant todo <= Keys(h, id)
        invariant basecache == old(basecache) - (Keys(h, id) - todo)
      {
        var n :| n in todo;
        ClearTokenFromBasecache(n);
        todo := todo - {n};
      }
    }

    // ---- looking up ----

    /** First the cache, then the dictionaries from the top down. */
    method FindSlot(n: Name) returns (p: Option<NodeId>)
      modifies this`cache
      ensures (S(), p) == Find(old(S()), n)
    {
      if n in cache { return Some(cache[n]); }
      for i := 0 to |d|
        invariant cache == old(cache) && Search(h, d, n) == Search(h, d[i..], n)
      {
        if n in Entries(h, d[i]) {
          cache := cache[n := Entries(h, d[i])[n]];
          return Some(Entries(h, d[i])[n]);
        }
      }
      return None;
    }

    /** The value of a name: that of its node in some dictionary on the stack, and with
        coherent caches what the plain search gives. */
    method LookupName(n: Name) returns (t: Option<Token>)
      requires Inv(S())
      modifies this`cache
      ensures Inv(S()) && (old(Coherent(S())) ==> Coherent(S()) && t == Lookup(Meaning(h, d), n))
      ensures t.Some? <==> exists i :: 0 <= i < |d| && n in Entries(h, d[i])
      ensures t.Some? ==> exists i :: 0 <= i < |d| && n in View(h, d[i]) && View(h, d[i])[n] == t.value
    {
      if Coherent(S()) { FindIsSearch(S(), n); }
      FindKeeps(S(), n);
      FindIsAlive(S(), n);
      SearchSucceeds(h, d, n);
      AnchorIsBinding(h, d, n);
      hide Inv, Coherent, Anchor, Meaning, Search, Entries;
      var p := FindSlot(n);
      t := if p.Some? then Some(h.nodes[p.value]) else None;
    }

    method Known(n: Name) returns (b: bool)
      requires Inv(S())
      modifies this`cache
      ensures Inv(S()) && (old(Coherent(S())) ==> Coherent(S()))
      ensures b <==> exists i :: 0 <= i < |d| && n in Entries(h, d[i])
    {
      FindIsAlive(S(), n);
      FindKeeps(S(), n);
      var p := FindSlot(n);
      SearchSucceeds(h, d, n);
      b := p.Some?;
    }

    predicate BoundAt(n: Name, i: nat)
      requires i < |d|
      reads this
    {
      n in Entries(h, d[i])
    }

    predicate UnboundAbove(n: Name, i: nat)
      requires i <= |d|
      reads this
    {
      forall j: nat :: j < i ==> !BoundAt(n, j)
    }

    /** The topmost dictionary that binds n; the caches are not asked. */
    method Where(n: Name) returns (r: Option<DictId>)
      ensures r.Some? ==> exists i :: 0 <= i < |d| && d[i] == r.value && BoundAt(n, i) && UnboundAbove(n, i)
      ensures r.None? ==> UnboundAbove(n, |d|)
    {
      for i := 0 to |d|
        invariant UnboundAbove(n, i)
      {
        if n in Entries(h, d[i]) { return Some(d[i]); }
      }
      return None;
    }

    /** Searches the base only, through the second cache. */
    method BaselookupName(n: Name) returns (t: Option<Token>)
      requires Counted(S()) && BaseCoherent(S())
      modifies this`cache, this`basecache
      ensures S() == Baselookup(old(S()), n).0
      ensures t == if base.Some? && n in View(h, base.value) then Some(View(h, base.value)[n]) else None
    {
      BaselookupIsBase(S(), n);
      if base.None? { return None; }
      if n in basecache { return Some(h.nodes[basecache[n]]); }
      if n !in Entries(h, base.value) { return None; }
      var p := Entries(h, base.value)[n];
      cache := cache[n := p];
      basecache := basecache[n := p];
      return Some(h.nodes[p]);
    }

    // ---- binding and unbinding ----

    /** The entry is written twice, as in the source; the second time to the same node. */
    method DefName(n: Name, t: Token)
      requires Inv(S()) && d != []
      modifies this`h, this`cache
      ensures d[0] < |old(h).dicts| && S() == DictOps.Def(old(S()), n, t) && Inv(S())
    {
      DefKeeps(S(), n, t);
      ListedAreAlive(S(), d[0]);
      InsertTwice(h, d[0], n, t);
      hide Inv, Insert;
      h := Insert(h, d[0], n, t);
      cache := cache[n := SlotOf(h, d[0], n)];
      h := Insert(h, d[0], n, t);
    }

    method UndefName(n: Name) returns (ok: bool)
      requires Inv(S())
      modifies this`h, this`cache, this`basecache
      ensures ok <==> old(d) != [] && n in Entries(old(h), old(d)[0])
      ensures Inv(S())
      ensures if ok then old(d)[0] < |old(h).dicts| && S() == DictOps.Undef(old(S()), n) else S() == old(S())
    {
      hide Inv, Erase, OnlyChanges, View;
      if d == [] || n !in Entries(h, d[0]) { return false; }
      UndefKeeps(S(), n);
      h := Erase(h, d[0], n);
      ClearTokenFromCache(n);
      ClearTokenFromBasecache(n);
      return true;
    }

    method BasedefName(n: Name, t: Token) returns (ok: bool)
      requires Inv(S())
      modifies this`h, this`cache, this`basecache
      ensures ok <==> old(base).Some?
      ensures Inv(S())
      ensures if ok then old(base).value < |old(h).dicts| && S() == DictOps.Basedef(old(S()), n, t)
              else S() == old(S())
    {
      hide Inv, Insert, OnlyChanges, View, Coherent;
      if base.None? { return false; }
      BasedefKeeps(S(), n, t);
      ClearTokenFromCache(n);
      h := Insert(h, base.value, n, t);
      basecache := basecache[n := SlotOf(h, base.value, n)];
      return true;
    }

    /** `put` into a dictionary that a token on the operand stack refers to. */
    method PutName(id: DictId, n: Name, t: Token) returns (ok: bool)
      requires Inv(S()) && id in held
      modifies this`h, this`cache, this`basecache
      ensures id < |old(h).dicts| && (ok <==> old(h).dicts[id].writable) && Inv(S())
      ensures S() == if ok then Put(old(S()), id, n, t) else old(S())
    {
      hide Inv, Insert;
      PutHeldKeeps(S(), id, n, t);
      if !h.dicts[id].writable { return false; }
      if h.dicts[id].marks > 0 {
        ClearTokenFromCache(n);
        ClearTokenFromBasecache(n);
      }
      h := Insert(h, id, n, t);
      return true;
    }

    method CleardictFunction(id: DictId) returns (ok: bool)
      requires Inv(S()) && id in held
      modifies this`h, this`cache, this`basecache
      ensures id < |old(h).dicts| && (ok <==> old(h).dicts[id].writable) && Inv(S())
      ensures S() == if ok then Cleardict(old(S()), id) else old(S())
    {
      hide Inv, EraseAll;
      ClearHeldKeeps(S(), id);
      if !h.dicts[id].writable { return false; }
      if h.dicts[id].marks > 0 {
        ClearDictFromCache(id);
        ClearDictFromBasecache(id);
      }
      h := EraseAll(h, id);
      return true;
    }

    // ---- references ----

    /** Releases the listed dictionaries one by one. */
    method ReleaseEach(ids: seq<DictId>, ghost owners: multiset<DictId>)
      requires Balanced(h, owners) && Owned(h) && multiset(ids) <= owners
      modifies this`h
      ensures h == ReleaseAll(old(h), ids, owners)
    {
      hide Owned, Balanced, Release, Same, View, Entries;
      ghost var rest := owners;
      for i := 0 to |ids|
        invariant Balanced(h, rest) && Owned(h) && multiset(ids[i..]) <= rest
        invariant ReleaseAll(old(h), ids, owners) == ReleaseAll(h, ids[i..], rest)
      {
        FirstOwned(ids[i..], rest);
        ReleaseBalances(h, rest, ids[i]);
        assert ids[i..][1..] == ids[i + 1..];
        h := Release(h, ids[i]);
        rest := rest - multiset{ids[i]};
      }
    }

    /** Acquires the listed dictionaries one by one, each with k marks. */
    method EnterEach(ids: seq<DictId>, k: int, ghost owners: multiset<DictId>)
      requires Balanced(h, owners) && Owned(h) && multiset(ids) <= owners
      modifies this`h
      ensures h == EnterAll(old(h), ids, k, owners)
    {
      hide Owned, Balanced, Enter, Same, View, Entries;
      ghost var grown := owners;
      for i := 0 to |ids|
        invariant Balanced(h, grown) && Owned(h) && multiset(ids[i..]) <= grown
        invariant EnterAll(old(h), ids, k, owners) == EnterAll(h, ids[i..], k, grown)
      {
        FirstOwned(ids[i..], grown);
        EnterBalances(h, grown, ids[i], k);
        assert ids[i..][1..] == ids[i + 1..];
        h := Enter(h, ids[i], k);
        grown := grown + multiset{ids[i]};
      }
    }

    /** A listing loses a reference, and with the last one its items. */
    method RemoveArrayReference(a: ArrayId)
      requires a < |arrays| && arrays[a].refs > 0 && Owned(h) && Balanced(h, Owners(S()))
      modifies this`h, this`arrays
      ensures S() == DropListing(old(S()), a)
    {
      hide Owned, Balanced, Owners, ListingOwners;
      DropOwners(S(), a);
      var x := arrays[a];
      ghost var t := DropListing(S(), a);
      assert t == S().(h := t.h, arrays := arrays[a := Dropped(x)]);
      assert t.h == if x.refs > 1 then h else ReleaseAll(h, x.items, Owners(S()));
      hide DropListing, ReleaseAll;
      if x.refs > 1 {
        arrays := arrays[a := x.(refs := x.refs - 1)];
      } else {
        ReleaseEach(x.items, Owners(S()));
        arrays := arrays[a := x.(items := [], refs := 0)];
      }
      assert S() == t;
    }

    method InvalidateSnapshot()
      requires Counted(S())
      modifies this`h, this`arrays, this`snapshot
      ensures S() == Invalidate(old(S()))
    {
      if snapshot.Some? {
        RemoveArrayReference(snapshot.value);
        snapshot := None;
      }
    }

    // ---- which dictionaries are on the stack ----

    method PushOnto(id: DictId)
      requires id < |h.dicts|
      modifies this
      ensures S() == PushFront(old(S()), id)
    {
      EnterKeepsKeys(h, id);
      h := Acquire(h, id);
      ClearDictFromCache(id);
      h := MarkBy(h, id, 1);
      d := [id] + d;
    }

    /** `push`, for a token on the operand stack. */
    method PushDict(id: DictId)
      requires Inv(S()) && id in held
      modifies this
      ensures S() == Push(old(S()), id) && Inv(S())
    {
      PushKeeps(S(), id);
      InvalidateKeeps(S());
      HeldIsAlive(Invalidate(S()), id);
      assert Counted(S());
      hide Inv, Counted, Invalidate, Owners;
      InvalidateSnapshot();
      PushOnto(id);
    }

    method PopTop()
      requires d != [] && d[0] < |h.dicts| && h.dicts[d[0]].refs > 0
      modifies this
      ensures S() == PopFront(old(S()))
    {
      var top := d[0];
      ClearDictFromCache(top);
      h := MarkBy(h, top, -1);
      d := d[1..];
      h := Release(h, top);
    }

    /** `pop`, unprotected: the last dictionary may go as well. */
    method PopDict()
      requires Inv(S()) && d != []
      modifies this
      ensures S() == DictMoves.Pop(old(S()))
    {
      InvalidateKeeps(S());
      ListedAreAlive(Invalidate(S()), d[0]);
      assert Counted(S());
      hide Inv, Counted, Invalidate, Owners;
      InvalidateSnapshot();
      PopTop();
    }

    method PopEverything()
      requires Counted(S())
      modifies this
      ensures S() == PopAll(old(S()))
    {
      hide Counted, Owners, Owned, Balanced, Same, View, Entries;
      CountedBalances(S());
      ghost var owners := Owners(S());
      ghost var all := PopAll(S());
      assert all.h == ReleaseAll(h, d, owners);
      assert all == S().(h := all.h, d := [], base := None, cache := map[], basecache := map[]);
      hide PopAll, ReleaseAll;
      ReleaseEach(d, owners);
      d := [];
      base := None;
      cache := map[];
      basecache := map[];
    }

    method ClearAll()
      requires Inv(S())
      modifies this
      ensures S() == Clear(old(S())) && Inv(S())
    {
      ClearKeeps(S());
      InvalidateKeeps(S());
      assert Counted(S());
      hide Inv, Counted, Invalidate, Owners;
      InvalidateSnapshot();
      PopEverything();
    }

    /** The bottom-first list of the stack. */
    method ToArray() returns (items: seq<DictId>)
      ensures items == Reversed(d)
    {
      items := [];
      var i := |d|;
      while i > 0
        invariant 0 <= i <= |d| && items == Reversed(d)[..|d| - i]
      {
        i := i - 1;
        assert Reversed(d)[|d| - 1 - i] == d[i];
        items := items + [d[i]];
      }
    }

    method MakeListing()
      requires Counted(S()) && snapshot.None?
      modifies this
      ensures S() == Materialise(old(S()))
    {
      hide Counted, Owners, Owned, Balanced, Reversed;
      CountedBalances(S());
      ghost var owners := Owners(S());
      var items := ToArray();
      EnterEach(items, 0, owners);
      arrays := arrays + [Listing(items, 1, false)];
      snapshot := Some(|arrays| - 1);
    }

    /** Makes the cached listing if there is none, and gives away one reference. */
    method TakeSnapshot() returns (a: ArrayId)
      requires Inv(S())
      modifies this
      ensures (S(), a) == Snapshot(old(S())) && Inv(S())
    {
      SnapshotKeeps(S());
      if snapshot.None? { MaterialiseCounted(S()); }
      assert Counted(S());
      hide Inv, Counted, Owners, Reversed, Materialise;
      if snapshot.None? {
        MakeListing();
      }
      a := snapshot.value;
      AddArrayReference(a);
    }

    method AddArrayReference(a: ArrayId)
      requires a < |arrays|
      modifies this
      ensures S() == HoldArray(old(S()), a)
    {
      arrays := arrays[a := arrays[a].(refs := arrays[a].refs + 1)];
      heldArrays := heldArrays + multiset{a};
    }

    method SetBase()
      requires d != []
      modifies this`base
      ensures S() == SetBasedict(old(S()))
    {
      base := Some(d[|d| - 1]);
    }

    /** Whether the listing is the stack as it is. */
    method Matches(items: seq<DictId>) returns (same: bool)
      ensures same <==> items == Reversed(d)
    {
      if |items| != |d| { return false; }
      for k := 0 to |d|
        invariant forall j :: 0 <= j < k ==> d[|d| - 1 - j] == items[j]
      {
        if d[|d| - 1 - k] != items[k] { return false; }
      }
      return true;
    }

    /** Pushes without invalidation: the caches are empty. */
    method RefillFrom(items: seq<DictId>)
      requires Counted(S()) && multiset(items) <= Owners(S()) && items != [] && d == []
      modifies this
      ensures S() == Refill(old(S()), items)
    {
      hide Counted, Owners, Owned, Balanced;
      CountedBalances(S());
      ghost var owners := Owners(S());
      EnterEach(items, 1, owners);
      PushEach(items);
      SetBase();
    }

    method PushEach(items: seq<DictId>)
      requires d == []
      modifies this`d
      ensures d == Reversed(items)
    {
      for k := 0 to |items|
        invariant d == Reversed(items)[|items| - k..]
      {
        assert Reversed(items)[|items| - k - 1] == items[k];
        d := [items[k]] + d;
      }
    }

    /** `restore_from`: nothing if the listing is the stack, otherwise the rebuild. */
    method RestoreFrom(a: ArrayId)
      requires Ready(S()) && a in heldArrays && arrays[a].items != []
      modifies this
      ensures S() == Restore(old(S()), a) && Ready(S())
    {
      RestoreKeeps(S(), a);
      ClearKeeps(S());
      HeldItemsAreOwned(Clear(S()), a);
      assert Inv(S()) && Counted(Clear(S()));
      hide Inv, Counted, Clear, Owners, Reversed, Refill;
      var items := arrays[a].items;
      var same := Matches(items);
      if !same {
        ClearAll();
        RefillFrom(items);
      }
    }

    // ---- operators ----

    /** `end` protects the three permanent dictionaries. */
    method EndFunction() returns (ok: bool)
      requires Ready(S())
      modifies this
      ensures ok <==> |old(d)| > PERMANENT
      ensures Ready(S()) && S() == if ok then DictMoves.Pop(old(S())) else old(S())
    {
      if |d| <= PERMANENT { return false; }
      PopKeeps(S());
      PopDict();
      return true;
    }

    /** `cleardictstack`: back to the permanent dictionaries. */
    method ResetDictstack(system: DictId, global: DictId, user: DictId)
      requires Inv(S()) && system in held && global in held && user in held
      modifies this
      ensures S() == Reset(old(S()), system, global, user) && Ready(S()) && d == [user, global, system]
    {
      ResetKeeps(S(), system, global, user);
      BaseOnlyReady(S(), system);
      ClearKeeps(S());
      hide Inv, Clear, Push;
      ClearAll();
      PushDict(system);
      SetBase();
      PushDict(global);
      PushDict(user);
    }
  }

  lemma {:induction false} SearchSucceeds(h: Heap, d: seq<DictId>, n: Name)
    ensures Search(h, d, n).Some? <==> exists i :: 0 <= i < |d| && n in Entries(h, d[i])
    decreases |d|
  {
    if d != [] {
      SearchSucceeds(h, d[1..], n);
      if Search(h, d[1..], n).Some? {
        var i :| 0 <= i < |d| - 1 && n in Entries(h, d[1..][i]);
        assert n in Entries(h, d[i + 1]);
      }
      if i :| 0 <= i < |d| && n in Entries(h, d[i]) && i > 0 {
        assert n in Entries(h, d[1..][i - 1]);
      }
    }
  }

  lemma AnchorIsBinding(h: Heap, d: seq<DictId>, n: Name)
    ensures forall p, id :: Anchor(h, d, n, p, id) && p in h.nodes ==>
              exists i :: 0 <= i < |d| && n in View(h, d[i]) && View(h, d[i])[n] == h.nodes[p]
  {
    forall p, id | Anchor(h, d, n, p, id) && p in h.nodes
      ensures exists i :: 0 <= i < |d| && n in View(h, d[i]) && View(h, d[i])[n] == h.nodes[p]
    {
      var i :| 0 <= i < |d| && d[i] == id;
      assert n in View(h, d[i]);
    }
  }

  lemma InsertTwice(h: Heap, id: DictId, n: Name, t: Token)
    requires id < |h.dicts|
    ensures Insert(Insert(h, id, n, t), id, n, t) == Insert(h, id, n, t)
  {
  }

  lemma EnterKeepsKeys(h: Heap, id: DictId)
    requires id < |h.dicts|
    ensures Keys(Acquire(h, id), id) == Keys(h, id)
  {
  }
}
