/** The dictionary stack with its two caches and its shared snapshot: what each operation
    does, and the invariant. */
module DictStack {
  import opened Tokens
  import opened DictHeap

  type ArrayId = nat

  /** An array that lists dictionaries. The one that the stack shares is read-only. */
  datatype Listing = Listing(items: seq<DictId>, refs: nat, writable: bool)

  /** The top of the stack d comes first, as in the code's list. `held` and `heldArrays` are
      the references that tokens outside the stack own. */
  datatype Stack = Stack(
    h: Heap,
    arrays: seq<Listing>,
    held: multiset<DictId>,
    heldArrays: multiset<ArrayId>,
    d: seq<DictId>,
    base: Option<DictId>,
    cache: map<Name, NodeId>,
    basecache: map<Name, NodeId>,
    snapshot: Option<ArrayId>)

  // ---- the plain search ----

  /** The node that a top-down search finds, without any cache. */
  function Search(h: Heap, d: seq<DictId>, n: Name): Option<NodeId> {
    if d == [] then None
    else if n in Entries(h, d[0]) then Some(Entries(h, d[0])[n])
    else Search(h, d[1..], n)
  }

  function Reversed<T>(s: seq<T>): (r: seq<T>)
    ensures |r| == |s| && forall i :: 0 <= i < |s| ==> r[i] == s[|s| - 1 - i]
  {
    seq(|s|, i requires 0 <= i < |s| => s[|s| - 1 - i])
  }

  /** What the stack means: its dictionaries, bottom first. */
  function Meaning(h: Heap, d: seq<DictId>): (m: seq<Dictionary>)
    ensures |m| == |d|
  {
    seq(|d|, i requires 0 <= i < |d| => View(h, d[|d| - 1 - i]))
  }

  /** The plain search is the search of the reference machine. */
  lemma {:induction false} SearchIsLookup(h: Heap, d: seq<DictId>, n: Name)
    requires Owned(h)
    ensures
      var p := Search(h, d, n);
      && (p.Some? ==> p.value in h.nodes)
      && Lookup(Meaning(h, d), n) == if p.Some? then Some(h.nodes[p.value]) else None
    decreases |d|
  {
    if d != [] {
      var m := Meaning(h, d);
      assert m[..|m| - 1] == Meaning(h, d[1..]);
      assert m[|m| - 1] == View(h, d[0]);
      SearchIsLookup(h, d[1..], n);
    }
  }

  /** It finds the entry of the first dictionary of d that binds n, and nothing exactly if
      none does. */
  lemma {:induction false} SearchIsFirst(h: Heap, d: seq<DictId>, n: Name)
    ensures Search(h, d, n).None? <==> forall id :: id in d ==> n !in Entries(h, id)
    ensures forall i :: 0 <= i < |d| && n in Entries(h, d[i]) && (forall j :: 0 <= j < i ==> n !in Entries(h, d[j]))
              ==> Search(h, d, n) == Some(Entries(h, d[i])[n])
    decreases |d|
  {
    hide Entries;
    if d != [] {
      var rest := d[1..];
      SearchIsFirst(h, rest, n);
      assert forall id :: id in d <==> id == d[0] || id in rest;
      forall i | 0 < i < |d| && n in Entries(h, d[i]) && (forall j :: 0 <= j < i ==> n !in Entries(h, d[j]))
        ensures Search(h, d, n) == Some(Entries(h, d[i])[n])
      {
        assert rest[i - 1] == d[i];
        assert forall j :: 0 <= j < i - 1 ==> rest[j] == d[j + 1];
      }
    }
  }

  // ---- the invariant ----

  ghost function ListingOwners(arrays: seq<Listing>): multiset<DictId> {
    if arrays == [] then multiset{}
    else ListingOwners(arrays[..|arrays| - 1]) + multiset(arrays[|arrays| - 1].items)
  }

  /** Everything that owns a reference to a dictionary. */
  ghost function Owners(s: Stack): multiset<DictId> {
    s.held + multiset(s.d) + ListingOwners(s.arrays)
  }

  /** Every cached pointer is the node that the plain search finds. */
  ghost predicate Coherent(s: Stack) {
    forall n :: n in s.cache ==> Search(s.h, s.d, n) == Some(s.cache[n])
  }

  /** The base is the bottom, and the second cache points into it. */
  ghost predicate BaseCoherent(s: Stack) {
    && (s.base.Some? ==> s.d != [] && s.base.value == s.d[|s.d| - 1])
    && (forall n :: n in s.basecache ==>
          && s.base.Some? && n in Entries(s.h, s.base.value)
          && s.basecache[n] == Entries(s.h, s.base.value)[n])
  }

  /** p is the node of n in the dictionary id, which is on the stack. */
  predicate Anchor(h: Heap, d: seq<DictId>, n: Name, p: NodeId, id: DictId) {
    id in d && n in Entries(h, id) && Entries(h, id)[n] == p
  }

  /** Every cached pointer is the node of its name in some dictionary on the stack. */
  ghost predicate Anchored(s: Stack) {
    forall n :: n in s.cache ==> exists id :: Anchor(s.h, s.d, n, s.cache[n], id)
  }

  ghost predicate ArraysBalanced(s: Stack) {
    && (forall a :: a in s.heldArrays ==> a < |s.arrays|)
    && (forall a :: 0 <= a < |s.arrays| ==>
          s.arrays[a].refs == s.heldArrays[a] + (if s.snapshot == Some(a) then 1 else 0))
    && (forall a :: 0 <= a < |s.arrays| && s.arrays[a].refs == 0 ==> s.arrays[a].items == [])
  }

  ghost predicate SnapshotFresh(s: Stack) {
    s.snapshot.Some? ==>
      && s.snapshot.value < |s.arrays| && s.arrays[s.snapshot.value].items == Reversed(s.d)
      && !s.arrays[s.snapshot.value].writable
  }

  /** The counter on a dictionary never falls below its occurrences on the stack. */
  ghost predicate MarksSuffice(s: Stack) {
    forall id :: 0 <= id < |s.h.dicts| ==> s.h.dicts[id].marks >= multiset(s.d)[id]
  }

  ghost predicate Counted(s: Stack) {
    && Owned(s.h) && Balanced(s.h, Owners(s)) && ArraysBalanced(s) && SnapshotFresh(s) && MarksSuffice(s)
  }

  /** What holds in every run. Coherence is not part of it: a `baselookup` may end it. */
  ghost predicate Inv(s: Stack) {
    Counted(s) && BaseCoherent(s) && Anchored(s)
  }

  lemma {:induction false} SearchIsAnchor(h: Heap, d: seq<DictId>, n: Name)
    ensures Search(h, d, n).Some? ==> exists id :: Anchor(h, d, n, Search(h, d, n).value, id)
    ensures Search(h, d, n).None? ==> forall id :: id in d ==> n !in Entries(h, id)
    decreases |d|
  {
    if d == [] {
    } else if n in Entries(h, d[0]) {
      assert Anchor(h, d, n, Entries(h, d[0])[n], d[0]);
    } else {
      SearchIsAnchor(h, d[1..], n);
      if id :| Search(h, d, n).Some? && Anchor(h, d[1..], n, Search(h, d, n).value, id) {
        assert Anchor(h, d, n, Search(h, d, n).value, id);
      }
    }
  }

  /** Coherent caches are anchored. */
  lemma CoherentIsAnchored(s: Stack)
    requires Coherent(s)
    ensures Anchored(s)
  {
    forall n | n in s.cache ensures exists id :: Anchor(s.h, s.d, n, s.cache[n], id) {
      SearchIsAnchor(s.h, s.d, n);
    }
  }

  /** Without a snapshot the listings do not depend on the rest. */
  lemma CountedParts(t: Stack, s: Stack)
    requires Counted(s) && s.snapshot.None? && t.snapshot.None?
    requires t.arrays == s.arrays && t.heldArrays == s.heldArrays
    requires Owned(t.h) && Balanced(t.h, Owners(t)) && MarksSuffice(t)
    ensures Counted(t)
  {
    hide Owned, Balanced, Owners;
  }

  /** Nothing on the stack has been freed. */
  lemma ListedAreAlive(s: Stack, id: DictId)
    requires Counted(s) && id in s.d
    ensures id < |s.h.dicts| && s.h.dicts[id].refs > 0 && id in Owners(s)
  {}

  // ---- listings of dictionaries ----

  lemma {:induction false} ListingIsOwned(arrays: seq<Listing>, a: ArrayId, x: Listing)
    requires a < |arrays|
    ensures multiset(arrays[a].items) <= ListingOwners(arrays)
    ensures ListingOwners(arrays[a := x])
            == ListingOwners(arrays) - multiset(arrays[a].items) + multiset(x.items)
    decreases |arrays|
  {
    var k := |arrays| - 1;
    var before, last := arrays[..k], multiset(arrays[k].items);
    assert ListingOwners(arrays) == ListingOwners(before) + last;
    if a == k {
      assert arrays[a := x][..k] == before;
    } else {
      var was, now := multiset(arrays[a].items), multiset(x.items);
      assert arrays[a := x][..k] == before[a := x];
      assert ListingOwners(arrays[a := x]) == ListingOwners(before[a := x]) + last;
      ListingIsOwned(before, a, x);
      hide ListingOwners;
      OneMore(ListingOwners(before), was, now, last);
    }
  }

  lemma OneMore(listed: multiset<DictId>, was: multiset<DictId>, now: multiset<DictId>, last: multiset<DictId>)
    requires was <= listed
    ensures was <= listed + last && listed - was + now + last == listed + last - was + now
  {}

  /** The array after one reference has gone. */
  function Dropped(x: Listing): Listing
    requires x.refs > 0
  {
    if x.refs > 1 then x.(refs := x.refs - 1) else x.(items := [], refs := 0)
  }

  /** One reference to a listing goes; the last takes the references to its items along. */
  ghost function DropListing(s: Stack, a: ArrayId): Stack
    requires a < |s.arrays| && s.arrays[a].refs > 0 && Owned(s.h) && Balanced(s.h, Owners(s))
  {
    var x := s.arrays[a];
    ListingIsOwned(s.arrays, a, Dropped(x));
    s.(arrays := s.arrays[a := Dropped(x)],
       h := if x.refs > 1 then s.h else ReleaseAll(s.h, x.items, Owners(s)))
  }

  lemma TakeOut(held: multiset<DictId>, d: multiset<DictId>, listed: multiset<DictId>, items: multiset<DictId>)
    requires items <= listed
    ensures held + d + listed - items == held + d + (listed - items)
    ensures held + d <= held + d + (listed - items)
  {
  }

  lemma DropOwners(s: Stack, a: ArrayId)
    requires a < |s.arrays| && s.arrays[a].refs > 0
    ensures
      var x := s.arrays[a];
      var t := s.(arrays := s.arrays[a := Dropped(x)]);
      && multiset(x.items) <= Owners(s)
      && Owners(t) == (if x.refs > 1 then Owners(s) else Owners(s) - multiset(x.items))
      && s.held + multiset(s.d) <= Owners(t)
  {
    var x := s.arrays[a];
    ListingIsOwned(s.arrays, a, Dropped(x));
    TakeOut(s.held, multiset(s.d), ListingOwners(s.arrays), multiset(x.items));
    hide ListingOwners;
  }

  lemma DropBalances(s: Stack, a: ArrayId)
    requires a < |s.arrays| && s.arrays[a].refs > 0 && Owned(s.h) && Balanced(s.h, Owners(s))
    ensures
      var t := DropListing(s, a);
      && Owned(t.h) && Balanced(t.h, Owners(t)) && Same(t.h, s.h, Owners(t))
      && s.held + multiset(s.d) <= Owners(t) <= Owners(s)
      && |t.h.dicts| == |s.h.dicts|
      && forall j :: 0 <= j < |s.h.dicts| ==> t.h.dicts[j].marks == s.h.dicts[j].marks
  {
    DropOwners(s, a);
    var t := DropListing(s, a);
    assert Owners(t) == Owners(s.(arrays := t.arrays));
    hide Owned, ListingOwners, Balanced, Owners, View, Entries;
  }

  /** The stack changes: the cached snapshot is given up. */
  ghost function Invalidate(s: Stack): Stack
    requires Counted(s)
  {
    if s.snapshot.None? then s else DropListing(s, s.snapshot.value).(snapshot := None)
  }

  /** Read-only listings are never rewritten and, once freed, no listing comes back. */
  ghost predicate Evolves(t: seq<Listing>, s: seq<Listing>) {
    && |s| <= |t|
    && forall a :: 0 <= a < |s| && t[a].refs > 0 ==>
         && s[a].refs > 0 && t[a].writable == s[a].writable
         && (!s[a].writable ==> t[a].items == s[a].items)
  }

  lemma EvolvesTrans(u: seq<Listing>, t: seq<Listing>, s: seq<Listing>)
    requires Evolves(u, t) && Evolves(t, s)
    ensures Evolves(u, s)
  {
  }

  /** `t` differs from `s` only in what it has let go. */
  ghost predicate LetsGo(t: Stack, s: Stack) {
    && Same(t.h, s.h, Owners(t)) && s.held + multiset(s.d) <= Owners(t) <= Owners(s)
    && |t.h.dicts| == |s.h.dicts| && |t.arrays| == |s.arrays|
    && (forall j :: 0 <= j < |s.h.dicts| ==> t.h.dicts[j].marks == s.h.dicts[j].marks)
    && (forall a :: a in s.heldArrays && a < |s.arrays| ==> t.arrays[a].items == s.arrays[a].items)
    && Evolves(t.arrays, s.arrays)
  }

  lemma MarksFrame(t: Stack, s: Stack)
    requires MarksSuffice(s) && t.d == s.d && |t.h.dicts| == |s.h.dicts|
    requires forall j :: 0 <= j < |s.h.dicts| ==> t.h.dicts[j].marks == s.h.dicts[j].marks
    ensures MarksSuffice(t)
  {
  }

  lemma DropLetsGo(t: Stack, s: Stack, a: ArrayId)
    requires ArraysBalanced(s) && s.snapshot == Some(a) && a < |s.arrays| && s.arrays[a].refs > 0
    requires t.arrays == s.arrays[a := Dropped(s.arrays[a])] && |t.h.dicts| == |s.h.dicts|
    requires Same(t.h, s.h, Owners(t)) && s.held + multiset(s.d) <= Owners(t) <= Owners(s)
    requires forall j :: 0 <= j < |s.h.dicts| ==> t.h.dicts[j].marks == s.h.dicts[j].marks
    ensures LetsGo(t, s)
  {
    hide Same, Owners;
  }

  lemma InvalidateKeeps(s: Stack)
    requires Counted(s)
    ensures
      var t := Invalidate(s);
      Counted(t) && LetsGo(t, s) && t == s.(h := t.h, arrays := t.arrays, snapshot := None)
    ensures Same(Invalidate(s).h, s.h, s.held + multiset(s.d))
  {
    if s.snapshot.Some? {
      var a := s.snapshot.value;
      assert a < |s.arrays| && s.arrays[a].refs == s.heldArrays[a] + 1;
      hide Owned, Balanced, ArraysBalanced, MarksSuffice, LetsGo, Same, ListingOwners, Evolves;
      var u := DropListing(s, a);
      var t := u.(snapshot := None);
      assert Invalidate(s) == t && t == s.(h := t.h, arrays := s.arrays[a := Dropped(s.arrays[a])], snapshot := None);
      DropBalances(s, a);
      assert Owners(t) == Owners(u);
      hide DropListing, Invalidate, Owners;
      DropArraysBalanced(s, t, a);
      MarksFrame(t, s);
      DropLetsGo(t, s, a);
      FewerAreSame(t.h, s.h, s.held + multiset(s.d), Owners(t));
    } else {
      LetsGoItself(s);
    }
  }

  lemma LetsGoItself(s: Stack)
    requires Counted(s)
    ensures LetsGo(s, s) && Same(s.h, s.h, s.held + multiset(s.d))
  {
    hide ListingOwners;
  }

  lemma DropArraysBalanced(s: Stack, t: Stack, a: ArrayId)
    requires ArraysBalanced(s) && s.snapshot == Some(a) && a < |s.arrays| && s.arrays[a].refs > 0
    requires t.arrays == s.arrays[a := Dropped(s.arrays[a])] && t.snapshot.None? && t.heldArrays == s.heldArrays
    ensures ArraysBalanced(t)
  {
  }
}
