/** Assigning to a cell of a shared array, directly or along a path. */
module CowPut {
  import opened Tokens
  import opened SharedArrays
  import opened CowOps

  /** Indices count modulo the size, from -size to size - 1; -1 stands for out of range. */
  function ResolveIndex(idx: int, size: nat): (r: int)
    ensures r == if 0 - size <= idx < size then idx % size else -1
  {
    var k := if idx < 0 then idx + size else idx;
    if k < 0 || k >= size then -1 else k
  }

  predicate IsArray(v: Value) {
    v.Ref? && v.kind.AnArray?
  }

  datatype Target = At(a: ArrayId, k: nat) | Error(e: Name)

  /** References in cells lead somewhere. */
  ghost predicate Linked(h: Heap) {
    forall x, k :: 0 <= x < |h| && 0 <= k < |h[x].items| && h[x].items[k].Ref? ==> h[x].items[k].id < |h|
  }

  lemma {:induction false} InvLinked(m: Memory)
    requires Inv(m)
    ensures Linked(m.h)
  {
    forall x, k | 0 <= x < |m.h| && 0 <= k < |m.h[x].items| && m.h[x].items[k].Ref?
      ensures m.h[x].items[k].id < |m.h|
    {
      CellIsHeld(m, x, k);
    }
  }

  lemma {:induction false} CellIsHeld(m: Memory, x: ArrayId, k: nat)
    requires Inv(m) && x < |m.h| && k < |m.h[x].items| && m.h[x].items[k].Ref?
    ensures m.h[x].items[k].id < |m.h| && m.h[m.h[x].items[k].id].refs > 0
  {
    var v := m.h[x].items[k];
    CellsUpdate(m.h, x, m.h[x]);
    RefsUpdate(m.h[x].items, k, v);
    assert RefOf(v)[v.id] == 1;
    assert v.id in Refs(m.h[x].items);
    assert v.id in Holders(m) + Cells(m.h);
  }

  /** The walk along a path of indices: every step checks the index's type, then that the
      array may be read, then the range; the last one that it may be written. */
  ghost function Descend(h: Heap, cur: ArrayId, path: seq<Value>): (r: Target)
    requires Linked(h) && cur < |h| && path != []
    ensures r.At? ==> r.a < |h| && r.k < |h[r.a].items| && h[r.a].access == UNLIMITED
    decreases |path|
  {
    if !path[0].Atom? then Error("ArgumentType")
    else if h[cur].access > READONLY then Error("InvalidAccess")
    else
      var k := ResolveIndex(path[0].i, |h[cur].items|);
      if k < 0 then Error("RangeCheck")
      else if |path| == 1 then
        if h[cur].access != UNLIMITED then Error("WriteProtected") else At(cur, k)
      else if !IsArray(h[cur].items[k]) then Error("ArgumentType")
      else Descend(h, h[cur].items[k].id, path[1..])
  }

  /** Each index of the path, in its order, leads from one array of the trail to the next. */
  ghost predicate Leads(h: Heap, path: seq<Value>, trail: seq<ArrayId>) {
    && |trail| == |path|
    && (forall i :: 0 <= i < |path| ==> Indexes(h, trail[i], path[i]))
    && (forall i, j :: 0 <= i < |path| - 1 && j == i + 1 ==> LeadsTo(h, trail[i], path[i], trail[j]))
  }

  /** The index lies in the array, which may be read. */
  ghost predicate Indexes(h: Heap, a: ArrayId, idx: Value) {
    a < |h| && idx.Atom? && h[a].access <= READONLY && ResolveIndex(idx.i, |h[a].items|) >= 0
  }

  ghost predicate LeadsTo(h: Heap, a: ArrayId, idx: Value, b: ArrayId)
    requires Indexes(h, a, idx)
  {
    var v := h[a].items[ResolveIndex(idx.i, |h[a].items|)];
    IsArray(v) && v.id == b
  }

  /** A path names the cell of its last index in the last array of such a trail. */
  lemma {:induction false} DescendLeads(h: Heap, cur: ArrayId, path: seq<Value>) returns (trail: seq<ArrayId>)
    requires Linked(h) && cur < |h| && path != [] && Descend(h, cur, path).At?
    ensures trail != [] && trail[0] == cur && Leads(h, path, trail)
    ensures
      var n := |path| - 1;
      Descend(h, cur, path) == At(trail[n], ResolveIndex(path[n].i, |h[trail[n]].items|))
    decreases |path|
  {
    if |path| == 1 {
      trail := [cur];
    } else {
      var k := ResolveIndex(path[0].i, |h[cur].items|);
      var rest := DescendLeads(h, h[cur].items[k].id, path[1..]);
      LeadsOn(h, cur, path, rest);
      trail := [cur] + rest;
    }
  }

  lemma LeadsOn(h: Heap, cur: ArrayId, path: seq<Value>, rest: seq<ArrayId>)
    requires |path| > 1 && Leads(h, path[1..], rest)
    requires Indexes(h, cur, path[0]) && LeadsTo(h, cur, path[0], rest[0])
    ensures Leads(h, path, [cur] + rest)
  {
    var trail, p := [cur] + rest, path[1..];
    hide Indexes, LeadsTo;
    forall i | 0 <= i < |path| ensures Indexes(h, trail[i], path[i]) {
      if i > 0 { assert path[i] == p[i - 1] && trail[i] == rest[i - 1]; }
    }
    forall i, j | 0 <= i < |path| - 1 && j == i + 1 ensures LeadsTo(h, trail[i], path[i], trail[j]) {
      if i > 0 { assert path[i] == p[i - 1] && trail[i] == rest[i - 1] && trail[j] == rest[i]; }
    }
  }

  lemma LeadsAfterwards(h: Heap, path: seq<Value>, trail: seq<ArrayId>)
    requires |path| > 1 && Leads(h, path, trail)
    ensures Leads(h, path[1..], trail[1..])
  {
    hide Indexes, LeadsTo;
    var p, t := path[1..], trail[1..];
    forall i | 0 <= i < |p| ensures Indexes(h, t[i], p[i]) {
      assert p[i] == path[i + 1] && t[i] == trail[i + 1];
    }
    forall i, j | 0 <= i < |p| - 1 && j == i + 1 ensures LeadsTo(h, t[i], p[i], t[j]) {
      assert p[i] == path[j] && t[i] == trail[j] && t[j] == trail[j + 1];
    }
  }

  /** Where there is such a trail, and its last array may be written, the path names that cell. */
  lemma {:induction false} TrailIsDescended(h: Heap, path: seq<Value>, trail: seq<ArrayId>)
    requires Linked(h) && path != [] && Leads(h, path, trail) && h[trail[|path| - 1]].access == UNLIMITED
    ensures
      var n := |path| - 1;
      Descend(h, trail[0], path) == At(trail[n], ResolveIndex(path[n].i, |h[trail[n]].items|))
    decreases |path|
  {
    if |path| > 1 {
      LeadsAfterwards(h, path, trail);
      assert path[1..][|path| - 2] == path[|path| - 1] && trail[1..][|path| - 2] == trail[|path| - 1];
      TrailIsDescended(h, path[1..], trail[1..]);
    }
  }

  /** Which cell `put` writes, or why it does not. A single index goes into arrays and
      procedures, a path only through arrays. */
  ghost function PutTarget(m: Memory): (r: Target)
    requires Inv(m)
    ensures r.At? ==> r.a < |m.h| && r.k < |m.h[r.a].items| && m.h[r.a].access == UNLIMITED
  {
    var n := |m.ost|;
    if n < 3 then Error("StackUnderflow")
    else if !m.ost[n - 3].Ref? then Error("ArgumentType")
    else
      var a, idx := m.ost[n - 3].id, m.ost[n - 2];
      SlotIsHeld(m, n - 3);
      if idx.Atom? then
        if m.h[a].access != UNLIMITED then Error("WriteProtected")
        else
          var k := ResolveIndex(idx.i, |m.h[a].items|);
          if k < 0 then Error("RangeCheck") else At(a, k)
      else if !IsArray(m.ost[n - 3]) || !IsArray(idx) then Error("ArgumentType")
      else
        SlotIsHeld(m, n - 2);
        InvLinked(m);
        var path := m.h[idx.id];
        if path.access > READONLY then Error("InvalidAccess")
        else if path.items == [] then Error("RangeCheck")
        else Descend(m.h, a, path.items)
  }

  /** With a path `put` writes the cell at its end. */
  lemma PutFollowsPath(m: Memory) returns (trail: seq<ArrayId>)
    requires Inv(m) && PutTarget(m).At? && m.ost[|m.ost| - 2].Ref?
    ensures
      var n := |m.ost|;
      && n >= 3 && m.ost[n - 3].Ref? && m.ost[n - 2].id < |m.h|
      && trail != [] && trail[0] == m.ost[n - 3].id && Leads(m.h, m.h[m.ost[n - 2].id].items, trail)
    ensures
      var path, k := m.h[m.ost[|m.ost| - 2].id].items, |trail| - 1;
      PutTarget(m) == At(trail[k], ResolveIndex(path[k].i, |m.h[trail[k]].items|))
  {
    hide Inv, Leads, ResolveIndex;
    var n := |m.ost|;
    assert n >= 3 && m.ost[n - 3].Ref?;
    SlotIsHeld(m, n - 3);
    SlotIsHeld(m, n - 2);
    InvLinked(m);
    trail := DescendLeads(m.h, m.ost[n - 3].id, m.h[m.ost[n - 2].id].items);
    LeadsAsLong(m.h, m.h[m.ost[n - 2].id].items, trail);
  }

  lemma LeadsAsLong(h: Heap, path: seq<Value>, trail: seq<ArrayId>)
    requires Leads(h, path, trail)
    ensures |trail| == |path|
  {}

  // ---- the assignment ----

  /** Every array that is still held has its old items in g, but for cell k of a. */
  ghost predicate OneCellWritten(g: Heap, h: Heap, a: ArrayId, k: nat, v: Value)
    requires a < |h| && k < |h[a].items|
  {
    && |g| == |h|
    && forall x :: 0 <= x < |h| && g[x].refs > 0 ==>
         g[x].items == (if x == a then h[a].items[k := v] else h[x].items) && g[x].access == h[x].access
  }

  /** The value on top is copied into the cell, and nothing has gone yet. */
  function Assigned(m: Memory, a: ArrayId, k: nat): Memory
    requires m.ost != [] && a < |m.h| && k < |m.h[a].items|
  {
    var v := m.ost[|m.ost| - 1];
    var g := Copied(m.h, v);
    if a < |g| then m.(h := g[a := g[a].(items := m.h[a].items[k := v])]) else m
  }

  lemma AssignedShape(m: Memory, a: ArrayId, k: nat)
    requires m.ost != [] && a < |m.h| && k < |m.h[a].items|
    ensures
      var g := Copied(m.h, m.ost[|m.ost| - 1]);
      && |g| == |m.h| && g[a].items == m.h[a].items
      && Assigned(m, a, k) == m.(h := g[a := g[a].(items := g[a].items[k := m.ost[|m.ost| - 1]])])
  {
  }

  /** The old value goes. No clone is made. */
  ghost function WriteCell(m: Memory, a: ArrayId, k: nat): (t: Memory)
    requires Inv(m) && m.ost != [] && a < |m.h| && k < |m.h[a].items|
  {
    AssignedBalances(m, a, k);
    Forget(Assigned(m, a, k), m.h[a].items[k])
  }

  lemma {:induction false} AssignedBalances(m: Memory, a: ArrayId, k: nat)
    requires Inv(m) && m.ost != [] && a < |m.h| && k < |m.h[a].items|
    ensures
      var t, was := Assigned(m, a, k), m.h[a].items[k];
      Balanced(t.h, Holders(t) + Refs([was]) + Cells(t.h))
  {
    var v, was := m.ost[|m.ost| - 1], m.h[a].items[k];
    var items, owners := m.h[a].items[k := v], Holders(m) + Cells(m.h);
    TopIsHeld(m);
    CopyOne(m.h, owners, v);
    RefsUpdate(m.h[a].items, k, v);
    RefsOne(was);
    var g, t := Copied(m.h, v), Assigned(m, a, k);
    assert g[a].items == m.h[a].items && g[a].refs > 0;
    CellsUpdate(g, a, g[a].(items := items));
    hide Cells, Refs, Holders, Copied, RefOf, Balanced;
    SwapAlgebra(Holders(m), Cells(g), Refs(g[a].items), RefOf(was), RefOf(v));
    ItemsKeepBalance(g, owners + RefOf(v), a, items);
    SameHolders(t, m);
  }

  lemma {:induction false} AssignedIsOne(m: Memory, a: ArrayId, k: nat)
    requires m.ost != [] && a < |m.h| && k < |m.h[a].items|
    ensures OneCellWritten(Assigned(m, a, k).h, m.h, a, k, m.ost[|m.ost| - 1])
  {
  }

  lemma SwapAlgebra(H: multiset<ArrayId>, C: multiset<ArrayId>, R: multiset<ArrayId>,
                    out: multiset<ArrayId>, v: multiset<ArrayId>)
    requires R <= C && out <= R
    ensures H + out + (C - R + (R - out + v)) == H + C + v
  {
  }

  /** `put`: one cell is written, index and value go, the container stays on the stack. */
  ghost function Put(m: Memory): (t: Memory)
    requires Inv(m) && PutTarget(m).At?
  {
    var target := PutTarget(m);
    WriteKeeps(m, target.a, target.k);
    PopToken(PopToken(WriteCell(m, target.a, target.k)))
  }

  lemma {:induction false} WriteKeeps(m: Memory, a: ArrayId, k: nat)
    requires Inv(m) && m.ost != [] && a < |m.h| && k < |m.h[a].items|
    ensures
      var t := WriteCell(m, a, k);
      && Inv(t) && t.ost == m.ost && t.others == m.others
      && OneCellWritten(t.h, m.h, a, k, m.ost[|m.ost| - 1])
  {
    AssignedBalances(m, a, k);
    AssignedIsOne(m, a, k);
    var s, was := Assigned(m, a, k), m.h[a].items[k];
    ForgetKeeps(s, was);
    assert s.ost == m.ost && s.others == m.others;
    hide Inv, Balanced, Forget, Assigned, Survives, OneCellWritten;
    SurvivesWrites(WriteCell(m, a, k).h, s.h, m.h, a, k, m.ost[|m.ost| - 1]);
  }

  lemma SurvivesWrites(g: Heap, f: Heap, h: Heap, a: ArrayId, k: nat, v: Value)
    requires a < |h| && k < |h[a].items| && OneCellWritten(f, h, a, k, v) && Survives(g, f)
    ensures OneCellWritten(g, h, a, k, v)
  {
  }

  lemma {:induction false} PopTwo(w: Memory, h: Heap, a: ArrayId, k: nat, v: Value)
    requires Inv(w) && |w.ost| >= 2 && a < |h| && k < |h[a].items| && OneCellWritten(w.h, h, a, k, v)
    ensures
      var t := PopToken(PopToken(w));
      Inv(t) && t.ost == w.ost[..|w.ost| - 2] && t.others == w.others && OneCellWritten(t.h, h, a, k, v)
  {
    hide Inv, OneCellWritten, Survives, PopToken;
    var u := PopToken(w);
    SurvivesWrites(u.h, w.h, h, a, k, v);
    SurvivesWrites(PopToken(u).h, u.h, h, a, k, v);
  }

  /** What `put` does: the one cell it names, and no other cell of any array that is still
      held, now has the value, for every holder alike; the counts are right. */
  lemma {:induction false} PutWritesOneCell(m: Memory)
    requires Inv(m) && PutTarget(m).At?
    ensures
      var t, n, target := Put(m), |m.ost|, PutTarget(m);
      && Inv(t) && t.ost == m.ost[..n - 2] && t.others == m.others
      && OneCellWritten(t.h, m.h, target.a, target.k, m.ost[n - 1])
  {
    assert |m.ost| >= 3;
    hide Inv, PutTarget, WriteCell, PopToken, OneCellWritten;
    var a, k := PutTarget(m).a, PutTarget(m).k;
    WriteKeeps(m, a, k);
    PopTwo(WriteCell(m, a, k), m.h, a, k, m.ost[|m.ost| - 1]);
  }

  /** What `get` finds under an integer index. */
  function Get(h: Heap, a: ArrayId, idx: int): Option<Value>
    requires a < |h|
  {
    var k := ResolveIndex(idx, |h[a].items|);
    if k < 0 then None else Some(h[a].items[k])
  }

  /** With a single index every holder of the container gets the value back from there, and
      from all other indices what was there before. */
  lemma {:induction false} GetAfterPut(m: Memory, idx: int)
    requires Inv(m) && PutTarget(m).At? && m.ost[|m.ost| - 2].Atom?
    ensures
      var n := |m.ost|;
      var a, t := m.ost[n - 3].id, Put(m);
      && a < |m.h| == |t.h|
      && Get(t.h, a, idx) == if ResolveIndex(idx, |m.h[a].items|) == PutTarget(m).k then Some(m.ost[n - 1])
                             else Get(m.h, a, idx)
  {
    hide Inv, Put, PutTarget, OneCellWritten;
    var n := |m.ost|;
    DirectTarget(m);
    var a, k := m.ost[n - 3].id, PutTarget(m).k;
    PutWritesOneCell(m);
    SlotIsHeld(Put(m), n - 3);
    WrittenCell(Put(m).h, m.h, a, k, m.ost[n - 1]);
  }

  lemma WrittenCell(g: Heap, h: Heap, a: ArrayId, k: nat, v: Value)
    requires a < |h| && k < |h[a].items| && OneCellWritten(g, h, a, k, v) && a < |g| && g[a].refs > 0
    ensures |g| == |h| && g[a].items == h[a].items[k := v]
  {}

  lemma DirectTarget(m: Memory)
    requires Inv(m) && PutTarget(m).At? && m.ost[|m.ost| - 2].Atom?
    ensures
      var n := |m.ost|;
      && n >= 3 && m.ost[n - 3].Ref? && m.ost[n - 3].id < |m.h| && PutTarget(m).a == m.ost[n - 3].id
      && PutTarget(m).k == ResolveIndex(m.ost[n - 2].i, |m.h[m.ost[n - 3].id].items|)
  {
    hide Inv;
  }
}
