/** The operand stack and the shared arrays as an object. Its methods work step by step; their
    contracts speak of the operations in `CowOps` and `CowPut`. */
module CowObject {
  import opened Tokens
  import opened SharedArrays
  import opened CowOps
  import opened CowPut

  class ArrayMachine {
    var ost: seq<Value>
    var others: seq<Value>
    var h: Heap

    function M(): Memory
      reads this
    {
      Memory(ost, others, h)
    }

    constructor (others: seq<Value>, h: Heap)
      requires Inv(Memory([], others, h))
      ensures Inv(M()) && ost == [] && this.others == others && this.h == h
    {
      ost, this.others, this.h := [], others, h;
    }

    // ---- reference counts ----

    /** `remove_reference`, and the destructors that it sets off. */
    method RemoveReferences(ids: seq<ArrayId>, ghost keep: multiset<ArrayId>)
      requires Balanced(h, keep + multiset(ids) + Cells(h))
      modifies this`h
      ensures h == ReleaseAll(old(h), ids, keep)
    {
      hide Balanced, Cells, Orphans, Survives;
      var work := ids;
      while work != []
        invariant Balanced(h, keep + multiset(work) + Cells(h))
        invariant ReleaseAll(old(h), ids, keep) == ReleaseAll(h, work, keep)
        decreases Live(h), |work|
      {
        WorkStep(h, work, keep);
        var x := h[work[0]];
        h := h[work[0] := Dropped(x)];
        work := Orphans(x) + work[1..];
      }
    }

    /** `add_reference` for every token of a copied array. */
    method AddReferences(ids: seq<ArrayId>, ghost owners: multiset<ArrayId>)
      requires Balanced(h, owners) && multiset(ids) <= owners
      modifies this`h
      ensures h == AcquireAll(old(h), ids, owners)
    {
      hide Balanced, Increased;
      ghost var grown := owners;
      for i := 0 to |ids|
        invariant Balanced(h, grown) && multiset(ids[i..]) <= grown
        invariant AcquireAll(old(h), ids, owners) == AcquireAll(h, ids[i..], grown)
      {
        FirstHeld(ids[i..], grown);
        OneMore(h, grown, ids[i]);
        MoreHeld(multiset(ids[i..][1..]), grown, ids[i]);
        assert ids[i..][1..] == ids[i + 1..];
        h := Acquire(h, ids[i]);
        grown := grown + multiset{ids[i]};
      }
    }

    method Pop()
      requires Inv(M()) && ost != []
      modifies this
      ensures M() == PopToken(old(M())) && Inv(M())
    {
      hide Inv, PopToken, ReleaseAll, Holders, Balanced, Refs, Cells, Survives, Ids;
      ghost var keep := PopSteps(M());
      var v := ost[|ost| - 1];
      ost := ost[..|ost| - 1];
      RemoveReferences(Ids([v]), keep);
    }

    // ---- append and prepend ----

    /** `cow_array_slot`: clones the slot's array if it is shared. */
    method CowArraySlot(slot: nat)
      requires Inv(M()) && slot < |ost| && ost[slot].Ref?
      modifies this
      ensures M() == Cow(old(M()), slot) && Inv(M())
    {
      CowKeeps(M(), slot);
      SlotIsHeld(M(), slot);
      if h[ost[slot].id].refs > 1 {
        hide Inv;
        CloneSlot(slot);
      }
    }

    method CloneSlot(slot: nat)
      requires Inv(M()) && slot < |ost| && ost[slot].Ref? && ost[slot].id < |h| && h[ost[slot].id].refs > 1
      modifies this
      ensures M() == Cow(old(M()), slot)
    {
      hide Balanced, Cells, Holders, Increased, AcquireAll, Ids, Cow;
      ghost var m, owners := M(), Holders(M()) + Cells(h);
      ghost var g := CowClones(m, slot);
      ghost var c := Cow(m, slot);
      var a := ost[slot].id;
      var items := h[a].items;
      AddReferences(Ids(items), owners);
      assert c == Memory(m.ost[slot := m.ost[slot].(id := |m.h|)], m.others, c.h);
      h := h[a := h[a].(refs := h[a].refs - 1)] + [Array(items, 1, UNLIMITED)];
      ost := ost[slot := ost[slot].(id := |h| - 1)];
    }

    /** `append` and `prepend`: the error is that of the first check that fails, and then
        nothing has changed. */
    method ExtendFunction(tid: Kind, front: bool) returns (e: Option<Name>)
      requires Inv(M())
      modifies this
      ensures e == ExtendError(old(M()), tid) && Inv(M())
      ensures M() == if e.None? then Extend(old(M()), tid, front) else old(M())
    {
      e := CheckExtend(tid);
      if e.Some? { return; }
      ghost var m := M();
      var slot := |ost| - 2;
      ExtendSteps(m, tid, front);
      hide Inv, Cow, Stored, PopToken, Extend, ExtendError;
      CowArraySlot(slot);
      assert ost == Cow(m, slot).ost && h == Cow(m, slot).h;
      StoreTop(slot, front);
      Pop();
    }

    method CheckExtend(tid: Kind) returns (e: Option<Name>)
      requires Inv(M())
      ensures e == ExtendError(M(), tid)
    {
      var n := |ost|;
      if n < 2 { return Some("StackUnderflow"); }
      if !ost[n - 2].Ref? || ost[n - 2].kind != tid { return Some("TypeMismatch"); }
      SlotIsHeld(M(), n - 2);
      if h[ost[n - 2].id].access != UNLIMITED { return Some("WriteProtected"); }
      return None;
    }

    /** `push_back` or `insert` at 0 of the token on top. */
    method StoreTop(slot: nat, front: bool)
      requires slot < |ost| && ost[slot].Ref? && ost[slot].id < |h|
      modifies this`h
      ensures M() == Stored(old(M()), slot, front)
    {
      var b, v := ost[slot].id, ost[|ost| - 1];
      var items := h[b].items;
      h := Copied(h, v);
      h := h[b := h[b].(items := if front then [v] + items else items + [v])];
    }

    // ---- put ----

    /** The loop along a path of indices. */
    method FollowPath(start: ArrayId, path: seq<Value>) returns (r: Target)
      requires Linked(h) && start < |h|
      ensures r == if path == [] then Error("RangeCheck") else Descend(h, start, path)
    {
      if path == [] { return Error("RangeCheck"); }
      var cur, i := start, 0;
      while i < |path|
        invariant 0 <= cur < |h| && 0 <= i < |path|
        invariant Descend(h, start, path) == Descend(h, cur, path[i..])
      {
        if !path[i].Atom? { return Error("ArgumentType"); }
        if h[cur].access > READONLY { return Error("InvalidAccess"); }
        var k := ResolveIndex(path[i].i, |h[cur].items|);
        if k < 0 { return Error("RangeCheck"); }
        if i + 1 == |path| {
          if h[cur].access != UNLIMITED { return Error("WriteProtected"); }
          return At(cur, k);
        }
        if !IsArray(h[cur].items[k]) { return Error("ArgumentType"); }
        assert path[i..][1..] == path[i + 1..];
        cur := h[cur].items[k].id;
        i := i + 1;
      }
      assert false;
    }

    method PutFunction() returns (r: Target)
      requires Inv(M())
      modifies this
      ensures r == PutTarget(old(M())) && Inv(M())
      ensures M() == if r.At? then Put(old(M())) else old(M())
    {
      r := FindTarget();
      if r.Error? { return; }
      ghost var m := M();
      PutWritesOneCell(m);
      WriteKeeps(m, r.a, r.k);
      assert Put(m) == PopToken(PopToken(WriteCell(m, r.a, r.k))) && |ost| >= 3;
      hide Inv, Put, PutTarget, WriteCell, PopToken;
      Assign(r.a, r.k);
      Pop();
      Pop();
    }

    method FindTarget() returns (r: Target)
      requires Inv(M())
      ensures r == PutTarget(M())
    {
      var n := |ost|;
      if n < 3 { return Error("StackUnderflow"); }
      if !ost[n - 3].Ref? { return Error("ArgumentType"); }
      SlotIsHeld(M(), n - 3);
      var a, idx := ost[n - 3].id, ost[n - 2];
      if idx.Atom? {
        if h[a].access != UNLIMITED { return Error("WriteProtected"); }
        var k := ResolveIndex(idx.i, |h[a].items|);
        if k < 0 { return Error("RangeCheck"); }
        return At(a, k);
      }
      if !IsArray(ost[n - 3]) || !IsArray(idx) { return Error("ArgumentType"); }
      SlotIsHeld(M(), n - 2);
      InvLinked(M());
      var path := h[idx.id];
      if path.access > READONLY { return Error("InvalidAccess"); }
      r := FollowPath(a, path.items);
    }

    /** The cell's token is overwritten by the one on top. */
    method Assign(a: ArrayId, k: nat)
      requires Inv(M()) && ost != [] && a < |h| && k < |h[a].items|
      modifies this`h
      ensures M() == WriteCell(old(M()), a, k) && Inv(M())
    {
      hide Inv, WriteCell, Balanced, Holders, Cells, Ids, Copied, ReleaseAll, Survives;
      ghost var keep := AssignSteps(M(), a, k);
      var was, v := h[a].items[k], ost[|ost| - 1];
      h := Copied(h, v);
      h := h[a := h[a].(items := h[a].items[k := v])];
      RemoveReferences(Ids([was]), keep);
    }
  }

  lemma ExtendSteps(m: Memory, tid: Kind, front: bool)
    requires Inv(m) && ExtendError(m, tid).None?
    ensures |m.ost| >= 2 && m.ost[|m.ost| - 2].Ref?
    ensures
      var slot := |m.ost| - 2;
      var c := Cow(m, slot);
      && |c.ost| == |m.ost| && c.ost[slot].Ref? && c.ost[slot].id < |c.h|
      && Inv(Stored(c, slot, front)) && Stored(c, slot, front).ost == c.ost
      && Extend(m, tid, front) == PopToken(Stored(c, slot, front))
  {
    hide Inv, Cow, PopToken, OwnCopy;
    var slot := |m.ost| - 2;
    CowKeeps(m, slot);
    OwnCopySlot(Cow(m, slot), m, slot);
    StoredKeeps(Cow(m, slot), slot, front);
  }

  lemma {:induction false} AssignSteps(m: Memory, a: ArrayId, k: nat) returns (keep: multiset<ArrayId>)
    requires Inv(m) && m.ost != [] && a < |m.h| && k < |m.h[a].items|
    ensures
      var was, v := m.h[a].items[k], m.ost[|m.ost| - 1];
      var g := Copied(m.h, v);
      && |g| == |m.h| && k < |g[a].items|
      && (var s := g[a := g[a].(items := g[a].items[k := v])];
          && Balanced(s, keep + multiset(Ids([was])) + Cells(s))
          && Inv(WriteCell(m, a, k)) && WriteCell(m, a, k) == m.(h := ReleaseAll(s, Ids([was]), keep)))
  {
    WriteKeeps(m, a, k);
    AssignedBalances(m, a, k);
    AssignedShape(m, a, k);
    var s := Assigned(m, a, k);
    keep := Holders(s);
    assert WriteCell(m, a, k) == Forget(s, m.h[a].items[k]);
    hide Inv, Holders, Balanced, Cells, Survives, OneCellWritten, Copied, Assigned, WriteCell, ReleaseAll;
  }
}
