/** Arrays shared by reference, their counts, and what becomes of an array that nobody holds. */
module SharedArrays {
  import opened Tokens

  type ArrayId = nat

  /** The token types whose payload is an array. */
  datatype Kind = AnArray | AProcedure | ALiteralProcedure

  /** A token as far as sharing goes: an integer or a reference to an array. */
  datatype Value = Atom(i: int) | Ref(id: ArrayId, kind: Kind)

  const UNLIMITED := 0
  const READONLY := 1

  datatype Array = Array(items: seq<Value>, refs: nat, access: nat)

  type Heap = seq<Array>

  /** The references among some tokens, in order. */
  function Ids(vs: seq<Value>): seq<ArrayId> {
    if vs == [] then []
    else (if vs[0].Ref? then [vs[0].id] else []) + Ids(vs[1..])
  }

  ghost function Refs(vs: seq<Value>): multiset<ArrayId> {
    multiset(Ids(vs))
  }

  lemma {:induction false} IdsAppend(u: seq<Value>, v: seq<Value>)
    ensures Ids(u + v) == Ids(u) + Ids(v)
    decreases |u|
  {
    if u == [] {
      assert u + v == v;
    } else {
      IdsAppend(u[1..], v);
      var first := if u[0].Ref? then [u[0].id] else [];
      assert (u + v)[1..] == u[1..] + v;
      assert Ids(u + v) == first + Ids(u[1..] + v);
      assert Ids(u) == first + Ids(u[1..]);
    }
  }

  lemma RefsAppend(u: seq<Value>, v: seq<Value>)
    ensures Refs(u + v) == Refs(u) + Refs(v)
  {
    IdsAppend(u, v);
  }

  ghost function RefOf(v: Value): multiset<ArrayId> {
    if v.Ref? then multiset{v.id} else multiset{}
  }

  lemma {:induction false} IdsOne(v: Value)
    ensures Ids([v]) == if v.Ref? then [v.id] else []
  {}

  lemma RefsOne(v: Value)
    ensures Refs([v]) == RefOf(v)
  {
    IdsOne(v);
  }

  /** Overwriting one token exchanges one reference. */
  lemma RefsUpdate(vs: seq<Value>, k: nat, v: Value)
    requires k < |vs|
    ensures RefOf(vs[k]) <= Refs(vs)
    ensures Refs(vs[k := v]) == Refs(vs) - RefOf(vs[k]) + RefOf(v)
  {
    assert vs == vs[..k] + [vs[k]] + vs[k + 1..];
    assert vs[k := v] == vs[..k] + [v] + vs[k + 1..];
    RefsAppend(vs[..k] + [vs[k]], vs[k + 1..]);
    RefsAppend(vs[..k] + [v], vs[k + 1..]);
    RefsAppend(vs[..k], [vs[k]]);
    RefsAppend(vs[..k], [v]);
    RefsOne(vs[k]);
    RefsOne(v);
  }

  /** The references in the cells of all arrays. */
  ghost function Cells(h: Heap): multiset<ArrayId> {
    if h == [] then multiset{} else Cells(h[..|h| - 1]) + Refs(h[|h| - 1].items)
  }

  lemma {:induction false} CellsUpdate(h: Heap, a: ArrayId, x: Array)
    requires a < |h|
    ensures Refs(h[a].items) <= Cells(h)
    ensures Cells(h[a := x]) == Cells(h) - Refs(h[a].items) + Refs(x.items)
    decreases |h|
  {
    var k := |h| - 1;
    hide Refs;
    if a == k {
      assert h[a := x][..k] == h[..k];
    } else {
      CellsUpdate(h[..k], a, x);
      assert h[a := x][..k] == h[..k][a := x];
    }
  }

  lemma CellsSame(h: Heap, a: ArrayId, x: Array)
    requires a < |h| && x.items == h[a].items
    ensures Cells(h[a := x]) == Cells(h)
  {
    CellsUpdate(h, a, x);
    GiveBack(Cells(h), Refs(x.items));
  }

  lemma GiveBack(l: multiset<ArrayId>, m: multiset<ArrayId>)
    requires m <= l
    ensures l - m + m == l
  {
  }

  /** Every count is the number of holders; an array without holders is empty. */
  ghost predicate Balanced(h: Heap, owners: multiset<ArrayId>) {
    && (forall a :: a in owners ==> a < |h|)
    && (forall a :: 0 <= a < |h| ==> h[a].refs == owners[a])
    && (forall a :: 0 <= a < |h| && h[a].refs == 0 ==> h[a].items == [])
  }

  function Live(h: Heap): nat {
    if h == [] then 0 else Live(h[..|h| - 1]) + if h[|h| - 1].refs > 0 then 1 else 0
  }

  lemma {:induction false} LiveUpdate(h: Heap, a: ArrayId, x: Array)
    requires a < |h|
    ensures Live(h[a := x]) == Live(h) - (if h[a].refs > 0 then 1 else 0) + if x.refs > 0 then 1 else 0
    decreases |h|
  {
    var k := |h| - 1;
    if a == k {
      assert h[a := x][..k] == h[..k];
    } else {
      LiveUpdate(h[..k], a, x);
      assert h[a := x][..k] == h[..k][a := x];
    }
  }

  // ---- gaining and losing holders ----

  function Acquire(h: Heap, a: ArrayId): Heap
    requires a < |h|
  {
    h[a := h[a].(refs := h[a].refs + 1)]
  }

  /** What is left of an array after one holder has gone. */
  function Dropped(x: Array): Array
    requires x.refs > 0
  {
    if x.refs > 1 then x.(refs := x.refs - 1) else Array([], 0, x.access)
  }

  /** The arrays that a holder of `a` lets go when it goes: none unless it was the last. */
  function Orphans(x: Array): seq<ArrayId> {
    if x.refs > 1 then [] else Ids(x.items)
  }

  lemma OneMore(h: Heap, owners: multiset<ArrayId>, a: ArrayId)
    requires Balanced(h, owners) && a in owners
    ensures a < |h| && Balanced(Acquire(h, a), owners + multiset{a})
  {
  }

  lemma OneLess(h: Heap, owners: multiset<ArrayId>, a: ArrayId)
    requires Balanced(h, owners) && a in owners
    ensures a < |h| && h[a].refs > 0 && Balanced(h[a := Dropped(h[a])], owners - multiset{a})
  {
  }

  lemma AcquireBalances(h: Heap, outside: multiset<ArrayId>, a: ArrayId)
    requires Balanced(h, outside + Cells(h)) && a in outside + Cells(h)
    ensures a < |h| && Balanced(Acquire(h, a), outside + multiset{a} + Cells(Acquire(h, a)))
  {
    OneMore(h, outside + Cells(h), a);
    CellsSame(h, a, h[a].(refs := h[a].refs + 1));
    hide Balanced, Cells;
    assert outside + multiset{a} + Cells(h) == outside + Cells(h) + multiset{a};
  }

  lemma DropCells(h: Heap, a: ArrayId)
    requires a < |h| && h[a].refs > 0
    ensures
      var orphans := multiset(Orphans(h[a]));
      orphans <= Cells(h) && Cells(h[a := Dropped(h[a])]) == Cells(h) - orphans
  {
    if h[a].refs > 1 {
      CellsSame(h, a, Dropped(h[a]));
    } else {
      CellsUpdate(h, a, Dropped(h[a]));
    }
    hide Cells;
  }

  lemma Regroup(keep: multiset<ArrayId>, work: multiset<ArrayId>, cells: multiset<ArrayId>,
                orphans: multiset<ArrayId>, a: ArrayId)
    requires orphans <= cells
    ensures keep + (orphans + work) + (cells - orphans) == keep + (multiset{a} + work) + cells - multiset{a}
  {
  }

  /** One turn of a release: the first array loses a holder, and what it leaves comes next. */
  lemma WorkStep(h: Heap, work: seq<ArrayId>, keep: multiset<ArrayId>)
    requires work != [] && Balanced(h, keep + multiset(work) + Cells(h))
    ensures work[0] < |h| && h[work[0]].refs > 0
    ensures
      var x := h[work[0]];
      var g, rest := h[work[0] := Dropped(x)], Orphans(x) + work[1..];
      && Balanced(g, keep + multiset(rest) + Cells(g)) && Survives(g, h)
      && (Live(g) < Live(h) || (Live(g) == Live(h) && |rest| < |work|))
  {
    hide Balanced, Cells, Live, Survives, Orphans;
    var a := work[0];
    assert multiset(work) == multiset{a} + multiset(work[1..]) by { assert work == [a] + work[1..]; }
    OneLess(h, keep + multiset(work) + Cells(h), a);
    DropCells(h, a);
    var x := h[a];
    assert multiset(Orphans(x) + work[1..]) == multiset(Orphans(x)) + multiset(work[1..]);
    Regroup(keep, multiset(work[1..]), Cells(h), multiset(Orphans(x)), a);
    DropSurvives(h, work, a);
  }

  lemma DropSurvives(h: Heap, work: seq<ArrayId>, a: ArrayId)
    requires a < |h| && h[a].refs > 0 && work != []
    ensures
      var g, rest := h[a := Dropped(h[a])], Orphans(h[a]) + work[1..];
      Survives(g, h) && (Live(g) < Live(h) || (Live(g) == Live(h) && |rest| < |work|))
  {}

  /** Releases the listed arrays in order, each with all that its end leaves without a
      holder before the next; `keep` is held elsewhere. */
  ghost function ReleaseAll(h: Heap, work: seq<ArrayId>, keep: multiset<ArrayId>): (g: Heap)
    requires Balanced(h, keep + multiset(work) + Cells(h))
    ensures Balanced(g, keep + Cells(g)) && Survives(g, h)
    decreases Live(h), |work|
  {
    if work == [] then
      assert keep + multiset(work) + Cells(h) == keep + Cells(h);
      h
    else
      WorkStep(h, work, keep);
      var x := h[work[0]];
      var g := h[work[0] := Dropped(x)];
      var r := ReleaseAll(g, Orphans(x) + work[1..], keep);
      SurvivesTrans(r, g, h);
      r
  }

  /** What is still held has not changed. */
  ghost predicate Survives(g: Heap, h: Heap) {
    && |g| == |h|
    && forall a :: 0 <= a < |h| && g[a].refs > 0 ==>
         h[a].refs > 0 && g[a].items == h[a].items && g[a].access == h[a].access
  }

  lemma SurvivesTrans(f: Heap, g: Heap, h: Heap)
    requires Survives(f, g) && Survives(g, h)
    ensures Survives(f, h)
  {
  }
}
