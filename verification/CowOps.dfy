/** Extending a shared array clones it first; assigning to a cell does not. */
module CowOps {
  import opened Tokens
  import opened SharedArrays

  /** The operand stack, every other token that is alive somewhere, and the arrays. */
  datatype Memory = Memory(ost: seq<Value>, others: seq<Value>, h: Heap)

  ghost function Holders(m: Memory): multiset<ArrayId> {
    Refs(m.ost) + Refs(m.others)
  }

  ghost predicate Inv(m: Memory) {
    Balanced(m.h, Holders(m) + Cells(m.h))
  }

  // ---- dropping a token ----

  /** The token v has left its place; the reference it owned goes. */
  ghost function Forget(m: Memory, v: Value): Memory
    requires Balanced(m.h, Holders(m) + Refs([v]) + Cells(m.h))
  {
    m.(h := ReleaseAll(m.h, Ids([v]), Holders(m)))
  }

  lemma ForgetKeeps(m: Memory, v: Value)
    requires Balanced(m.h, Holders(m) + Refs([v]) + Cells(m.h))
    ensures Inv(Forget(m, v)) && Survives(Forget(m, v).h, m.h)
    ensures Forget(m, v) == m.(h := Forget(m, v).h)
  {
    hide Balanced, Cells, Refs, Survives;
  }

  lemma PopHolders(m: Memory)
    requires m.ost != []
    ensures Holders(m) == Holders(m.(ost := m.ost[..|m.ost| - 1])) + Refs([m.ost[|m.ost| - 1]])
  {
    var k := |m.ost| - 1;
    assert m.ost == m.ost[..k] + [m.ost[k]];
    RefsAppend(m.ost[..k], [m.ost[k]]);
  }

  ghost function PopToken(m: Memory): (t: Memory)
    requires Inv(m) && m.ost != []
    ensures Inv(t) && Survives(t.h, m.h) && t.ost == m.ost[..|m.ost| - 1] && t.others == m.others
  {
    PopHolders(m);
    Forget(m.(ost := m.ost[..|m.ost| - 1]), m.ost[|m.ost| - 1])
  }

  /** A pop is a release of what the token refers to. */
  lemma {:induction false} PopSteps(m: Memory) returns (keep: multiset<ArrayId>)
    requires Inv(m) && m.ost != []
    ensures
      var v := m.ost[|m.ost| - 1];
      && Balanced(m.h, keep + multiset(Ids([v])) + Cells(m.h)) && Inv(PopToken(m))
      && PopToken(m) == m.(ost := m.ost[..|m.ost| - 1], h := ReleaseAll(m.h, Ids([v]), keep))
  {
    PopHolders(m);
    keep := Holders(m.(ost := m.ost[..|m.ost| - 1]));
    hide Holders, Balanced, Cells, Survives;
  }

  // ---- clone on write ----

  ghost function AcquireAll(h: Heap, ids: seq<ArrayId>, owners: multiset<ArrayId>): (g: Heap)
    requires Balanced(h, owners) && multiset(ids) <= owners
    ensures Balanced(g, owners + multiset(ids)) && Increased(g, h)
    decreases |ids|
  {
    if ids == [] then
      assert owners + multiset(ids) == owners;
      h
    else
      FirstHeld(ids, owners);
      OneMore(h, owners, ids[0]);
      MoreHeld(multiset(ids[1..]), owners, ids[0]);
      var r := AcquireAll(Acquire(h, ids[0]), ids[1..], owners + multiset{ids[0]});
      assert owners + multiset{ids[0]} + multiset(ids[1..]) == owners + multiset(ids);
      r
  }

  lemma MoreHeld(few: multiset<ArrayId>, owners: multiset<ArrayId>, a: ArrayId)
    requires few <= owners
    ensures few <= owners + multiset{a}
  {
  }

  lemma {:induction false} IncreasedCells(g: Heap, h: Heap)
    requires Increased(g, h)
    ensures Cells(g) == Cells(h)
    decreases |h|
  {
    if h != [] {
      IncreasedCells(g[..|g| - 1], h[..|h| - 1]);
    }
  }

  lemma FirstHeld(ids: seq<ArrayId>, held: multiset<ArrayId>)
    requires ids != [] && multiset(ids) <= held
    ensures ids[0] in held && multiset(ids) == multiset{ids[0]} + multiset(ids[1..]) && multiset(ids[1..]) <= held
  {
    assert ids == [ids[0]] + ids[1..];
    assert ids[0] in multiset(ids);
  }

  /** Only counts have grown. */
  ghost predicate Increased(g: Heap, h: Heap) {
    && |g| == |h|
    && forall a :: 0 <= a < |h| ==>
         g[a].items == h[a].items && g[a].access == h[a].access && g[a].refs >= h[a].refs
  }

  /** The slot's array, cloned if someone else holds it too. */
  ghost function Cow(m: Memory, slot: nat): Memory
    requires Inv(m) && slot < |m.ost| && m.ost[slot].Ref?
  {
    var a := m.ost[slot].id;
    SlotIsHeld(m, slot);
    if m.h[a].refs <= 1 then m
    else
      ItemsHeld(m, a);
      var h := AcquireAll(m.h, Ids(m.h[a].items), Holders(m) + Cells(m.h));
      CloneOf(m, h, slot)
  }

  /** A new array takes the place of the one in the slot; h counts the holders of its items. */
  function CloneOf(m: Memory, h: Heap, slot: nat): Memory
    requires slot < |m.ost| && m.ost[slot].Ref? && m.ost[slot].id < |m.h| == |h| && h[m.ost[slot].id].refs > 0
  {
    var a := m.ost[slot].id;
    m.(ost := m.ost[slot := m.ost[slot].(id := |h|)],
       h := h[a := h[a].(refs := h[a].refs - 1)] + [Array(m.h[a].items, 1, UNLIMITED)])
  }

  lemma ItemsHeld(m: Memory, a: ArrayId)
    requires a < |m.h|
    ensures Refs(m.h[a].items) <= Holders(m) + Cells(m.h)
  {
    CellsUpdate(m.h, a, m.h[a]);
    hide Cells, Refs, Holders;
  }

  lemma SlotIsHeld(m: Memory, slot: nat)
    requires Inv(m) && slot < |m.ost| && m.ost[slot].Ref?
    ensures m.ost[slot].id < |m.h| && m.h[m.ost[slot].id].refs > 0
    ensures m.ost[slot].id in Refs(m.ost)
  {
    RefsUpdate(m.ost, slot, Atom(0));
    var a := m.ost[slot].id;
    assert RefOf(m.ost[slot])[a] == 1;
    assert a in Holders(m) + Cells(m.h);
  }

  /** Every token but the one in the slot: who else may hold an array. */
  ghost function Elsewhere(m: Memory, slot: nat): multiset<ArrayId>
    requires slot < |m.ost|
  {
    Refs(m.ost[slot := Atom(0)]) + Refs(m.others) + Cells(m.h)
  }

  lemma SlotSplits(m: Memory, slot: nat)
    requires slot < |m.ost|
    ensures Holders(m) + Cells(m.h) == Elsewhere(m, slot) + RefOf(m.ost[slot])
  {
    RefsUpdate(m.ost, slot, Atom(0));
    hide Refs, Cells;
  }

  /** The clone is made exactly when someone else holds the array. */
  lemma ClonedWhenShared(m: Memory, slot: nat)
    requires Inv(m) && slot < |m.ost| && m.ost[slot].Ref?
    ensures m.ost[slot].id < |m.h|
    ensures m.h[m.ost[slot].id].refs <= 1 <==> m.ost[slot].id !in Elsewhere(m, slot)
  {
    SlotIsHeld(m, slot);
    SlotSplits(m, slot);
    hide Elsewhere, Holders, Cells;
  }

  lemma CloneBalances(h: Heap, owners: multiset<ArrayId>, a: ArrayId, x: Array)
    requires Balanced(h, owners) && a in owners && h[a].refs > 1 && x.refs == 1
    ensures a < |h|
    ensures Balanced(h[a := h[a].(refs := h[a].refs - 1)] + [x], owners - multiset{a} + multiset{|h|})
  {
  }

  lemma CloneAlgebra(H: multiset<ArrayId>, C: multiset<ArrayId>, R: multiset<ArrayId>, a: ArrayId, n: ArrayId)
    requires a in H
    ensures H + C + R - multiset{a} + multiset{n} == H - multiset{a} + multiset{n} + (C + R)
  {
  }

  lemma SlotHolders(m: Memory, slot: nat, n: ArrayId)
    requires slot < |m.ost| && m.ost[slot].Ref?
    ensures m.ost[slot].id in Holders(m)
    ensures Holders(m.(ost := m.ost[slot := m.ost[slot].(id := n)]))
            == Holders(m) - multiset{m.ost[slot].id} + multiset{n}
  {
    RefsUpdate(m.ost, slot, m.ost[slot].(id := n));
    hide Refs;
  }

  /** After `cow_array_slot` the slot has an array of its own with the old contents, and all
      others are as they were. */
  ghost predicate OwnCopy(c: Memory, m: Memory, slot: nat) {
    && slot < |m.ost| && m.ost[slot].Ref? && |c.ost| == |m.ost| && c.ost[slot].Ref?
    && (var a, b := m.ost[slot].id, c.ost[slot].id;
        && a < |m.h| <= |c.h| && b < |c.h|
        && c.ost == m.ost[slot := m.ost[slot].(id := b)] && c.others == m.others
        && (b == a || b == |m.h|) && (b == a <==> m.h[a].refs <= 1)
        && c.h[b].items == m.h[a].items && c.h[b].refs == 1
        && (c.h[b].access == UNLIMITED || c.h[b].access == m.h[a].access)
        && forall x :: 0 <= x < |m.h| && x != b ==>
             c.h[x].items == m.h[x].items && c.h[x].access == m.h[x].access)
  }

  /** `c` is `m` with a clone of the slot's array in the slot; `h` has the counts of the
      clone's items. */
  ghost predicate Cloned(c: Memory, m: Memory, h: Heap, slot: nat) {
    && slot < |m.ost| && m.ost[slot].Ref? && m.ost[slot].id < |m.h| == |h|
    && h[m.ost[slot].id].refs >= m.h[m.ost[slot].id].refs > 1
    && c == CloneOf(m, h, slot)
  }

  lemma CloneKeepsInv(m: Memory, c: Memory, h: Heap, slot: nat)
    requires Cloned(c, m, h, slot) && Increased(h, m.h) && m.ost[slot].id in Holders(m)
    requires Balanced(h, Holders(m) + Cells(m.h) + Refs(m.h[m.ost[slot].id].items))
    ensures Inv(c)
  {
    hide Balanced, Holders, Cells, Refs, Increased;
    var a, n := m.ost[slot].id, |m.h|;
    var x := Array(m.h[a].items, 1, UNLIMITED);
    CloneBalances(h, Holders(m) + Cells(m.h) + Refs(x.items), a, x);
    CloneCells(h, m.h, a, x);
    SlotHolders(m, slot, n);
    SameHolders(c, m.(ost := c.ost));
    CloneAlgebra(Holders(m), Cells(m.h), Refs(x.items), a, n);
  }

  lemma CloneIsOwn(m: Memory, c: Memory, h: Heap, slot: nat)
    requires Cloned(c, m, h, slot) && Increased(h, m.h)
    ensures OwnCopy(c, m, slot)
  {
  }

  lemma {:induction false} CowClones(m: Memory, slot: nat) returns (h: Heap)
    requires Inv(m) && slot < |m.ost| && m.ost[slot].Ref?
    requires m.ost[slot].id < |m.h| && m.h[m.ost[slot].id].refs > 1
    ensures Cloned(Cow(m, slot), m, h, slot) && Increased(h, m.h)
    ensures Balanced(h, Holders(m) + Cells(m.h) + Refs(m.h[m.ost[slot].id].items))
    ensures Refs(m.h[m.ost[slot].id].items) <= Holders(m) + Cells(m.h)
    ensures h == AcquireAll(m.h, Ids(m.h[m.ost[slot].id].items), Holders(m) + Cells(m.h))
  {
    var a := m.ost[slot].id;
    hide Holders, Cells, Balanced, Increased, Ids;
    ItemsHeld(m, a);
    var ids, owners := Ids(m.h[a].items), Holders(m) + Cells(m.h);
    assert Balanced(m.h, owners) && multiset(ids) <= owners;
    h := AcquireAll(m.h, ids, owners);
    CountsGrow(h, m.h, a);
    assert Cow(m, slot) == CloneOf(m, h, slot);
  }

  lemma CountsGrow(g: Heap, h: Heap, a: ArrayId)
    requires Increased(g, h) && a < |h|
    ensures |g| == |h| && g[a].refs >= h[a].refs
  {
  }

  lemma CowKeeps(m: Memory, slot: nat)
    requires Inv(m) && slot < |m.ost| && m.ost[slot].Ref?
    ensures Inv(Cow(m, slot)) && OwnCopy(Cow(m, slot), m, slot)
  {
    SlotIsHeld(m, slot);
    assert m.h[m.ost[slot].id].refs <= 1 ==> Cow(m, slot) == m;
    hide Inv, Cow, Holders, Cells, Refs, Balanced, Cloned, Increased;
    if m.h[m.ost[slot].id].refs > 1 {
      var h := CowClones(m, slot);
      SlotHolders(m, slot, |m.h|);
      CloneKeepsInv(m, Cow(m, slot), h, slot);
      CloneIsOwn(m, Cow(m, slot), h, slot);
    }
  }

  lemma SameHolders(c: Memory, m: Memory)
    requires c.ost == m.ost && c.others == m.others
    ensures Holders(c) == Holders(m)
  {
  }

  lemma CloneCells(h: Heap, m: Heap, a: ArrayId, x: Array)
    requires Increased(h, m) && a < |m| && h[a].refs > 0 && x.items == m[a].items
    ensures Cells(h[a := h[a].(refs := h[a].refs - 1)] + [x]) == Cells(m) + Refs(x.items)
  {
    var g := h[a := h[a].(refs := h[a].refs - 1)];
    IncreasedCells(h, m);
    CellsSame(h, a, g[a]);
    assert (g + [x])[..|g|] == g;
  }

  // ---- append and prepend ----

  /** A copy of the token v is made. */
  function Copied(h: Heap, v: Value): Heap {
    if v.Ref? && v.id < |h| then Acquire(h, v.id) else h
  }

  lemma CopyOne(h: Heap, owners: multiset<ArrayId>, v: Value)
    requires Balanced(h, owners) && RefOf(v) <= owners
    ensures
      var g := Copied(h, v);
      && Balanced(g, owners + RefOf(v)) && Cells(g) == Cells(h) && |g| == |h|
      && forall x :: 0 <= x < |h| ==> g[x].items == h[x].items && g[x].refs >= h[x].refs && g[x].access == h[x].access
  {
    if v.Ref? {
      assert RefOf(v)[v.id] == 1;
      OneMore(h, owners, v.id);
      CellsSame(h, v.id, h[v.id].(refs := h[v.id].refs + 1));
    }
    hide Cells;
  }

  /** The items of array b are replaced by items that hold one reference to v more. */
  lemma StoreBalances(m: Memory, b: ArrayId, v: Value, items: seq<Value>)
    requires Inv(m) && b < |m.h| && m.h[b].refs > 0 && RefOf(v) <= Holders(m) + Cells(m.h)
    requires Refs(items) == Refs(m.h[b].items) + RefOf(v)
    ensures
      var g := Copied(m.h, v);
      |g| == |m.h| && Inv(m.(h := g[b := g[b].(items := items)]))
  {
    var g := Copied(m.h, v);
    var owners := Holders(m) + Cells(m.h);
    assert Balanced(m.h, owners);
    hide Cells, Refs, Holders, Copied, RefOf, Balanced;
    CopyOne(m.h, owners, v);
    CellsUpdate(g, b, g[b].(items := items));
    StoreAlgebra(Holders(m), Cells(g), Refs(g[b].items), RefOf(v));
    ItemsKeepBalance(g, owners + RefOf(v), b, items);
    SameHolders(m.(h := g[b := g[b].(items := items)]), m);
  }

  lemma StoreAlgebra(H: multiset<ArrayId>, C: multiset<ArrayId>, R: multiset<ArrayId>, v: multiset<ArrayId>)
    requires R <= C
    ensures H + (C - R + (R + v)) == H + C + v
  {
  }

  lemma ItemsKeepBalance(h: Heap, owners: multiset<ArrayId>, b: ArrayId, items: seq<Value>)
    requires Balanced(h, owners) && b < |h| && h[b].refs > 0
    ensures Balanced(h[b := h[b].(items := items)], owners)
  {
  }

  /** What stands in the way of the leaf of `append` or `prepend` for the type tid. */
  function ExtendError(m: Memory, tid: Kind): Option<Name> {
    var n := |m.ost|;
    if n < 2 then Some("StackUnderflow")
    else if !m.ost[n - 2].Ref? || m.ost[n - 2].kind != tid then Some("TypeMismatch")
    else if m.ost[n - 2].id < |m.h| && m.h[m.ost[n - 2].id].access != UNLIMITED then Some("WriteProtected")
    else None
  }

  function Joined(items: seq<Value>, v: Value, front: bool): seq<Value> {
    if front then [v] + items else items + [v]
  }

  lemma JoinedRefs(items: seq<Value>, v: Value, front: bool)
    ensures Refs(Joined(items, v, front)) == Refs(items) + RefOf(v)
  {
    RefsAppend([v], items);
    RefsAppend(items, [v]);
    RefsOne(v);
  }

  /** The token on top is stored in the slot's array, which nobody else holds. */
  function Stored(c: Memory, slot: nat, front: bool): Memory
    requires slot < |c.ost| && c.ost[slot].Ref? && c.ost[slot].id < |c.h|
  {
    var b, v := c.ost[slot].id, c.ost[|c.ost| - 1];
    var g := Copied(c.h, v);
    c.(h := g[b := g[b].(items := Joined(c.h[b].items, v, front))])
  }

  lemma TopIsHeld(m: Memory)
    requires m.ost != []
    ensures RefOf(m.ost[|m.ost| - 1]) <= Holders(m) + Cells(m.h)
  {
    RefsUpdate(m.ost, |m.ost| - 1, Atom(0));
    hide Refs, Cells;
  }

  lemma StoredKeeps(c: Memory, slot: nat, front: bool)
    requires Inv(c) && slot < |c.ost| && c.ost[slot].Ref? && c.ost[slot].id < |c.h| && c.h[c.ost[slot].id].refs > 0
    ensures Inv(Stored(c, slot, front))
  {
    hide Inv, Holders, Cells, Refs, RefOf, Ids, Balanced, Joined, Copied;
    var b, v := c.ost[slot].id, c.ost[|c.ost| - 1];
    TopIsHeld(c);
    JoinedRefs(c.h[b].items, v, front);
    StoreBalances(c, b, v, Joined(c.h[b].items, v, front));
  }

  ghost function Extend(m: Memory, tid: Kind, front: bool): Memory
    requires Inv(m) && ExtendError(m, tid).None?
  {
    var slot := |m.ost| - 2;
    CowKeeps(m, slot);
    StoredKeeps(Cow(m, slot), slot, front);
    PopToken(Stored(Cow(m, slot), slot, front))
  }

  lemma {:induction false} ReleaseSpare(h: Heap, v: Value, keep: multiset<ArrayId>)
    requires Balanced(h, keep + multiset(Ids([v])) + Cells(h)) && (v.Ref? ==> v.id < |h| && h[v.id].refs > 1)
    ensures ReleaseAll(h, Ids([v]), keep) == if v.Ref? then h[v.id := h[v.id].(refs := h[v.id].refs - 1)] else h
  {
    var work := Ids([v]);
    IdsOne(v);
    if v.Ref? {
      WorkStep(h, work, keep);
      assert Orphans(h[v.id]) + work[1..] == [];
    }
    hide Balanced, Cells;
  }

  /** Every array of h has the items `items` in g if it is b, and its own if not. */
  ghost predicate Reads(g: Heap, h: Heap, b: ArrayId, items: seq<Value>) {
    && |h| <= |g| && b < |g| && g[b].items == items
    && forall x :: 0 <= x < |h| && x != b ==> g[x].items == h[x].items
  }

  /** Popping a token that is not the last holder frees nothing. */
  lemma {:induction false} PopSpare(m: Memory, h: Heap, b: ArrayId, items: seq<Value>)
    requires Inv(m) && m.ost != [] && Reads(m.h, h, b, items)
    requires var v := m.ost[|m.ost| - 1]; v.Ref? ==> v.id < |m.h| && m.h[v.id].refs > 1
    ensures Reads(PopToken(m).h, h, b, items)
  {
    hide Inv, PopToken, ReleaseAll, Ids, Balanced, Cells, Survives, Reads;
    var v := m.ost[|m.ost| - 1];
    var keep := PopSteps(m);
    ReleaseSpare(m.h, v, keep);
    if v.Ref? {
      ReadsWithoutOne(m.h, h, b, items, v.id);
    }
    assert Reads(PopToken(m).h, h, b, items);
  }

  lemma ReadsWithoutOne(g: Heap, h: Heap, b: ArrayId, items: seq<Value>, a: ArrayId)
    requires Reads(g, h, b, items) && a < |g| && g[a].refs > 1
    ensures Reads(g[a := g[a].(refs := g[a].refs - 1)], h, b, items)
  {
  }

  /** Storing changes one array only. */
  lemma StoredReads(m: Memory, c: Memory, slot: nat, front: bool)
    requires OwnCopy(c, m, slot)
    ensures
      var b, v := c.ost[slot].id, c.ost[|c.ost| - 1];
      Reads(Stored(c, slot, front).h, m.h, b, Joined(m.h[m.ost[slot].id].items, v, front))
  {
  }

  /** t is m after the token on top has gone into the array of the slot below it: the slot has
      the array b, which reads the longer items, and every other array reads as before. */
  ghost predicate Extended(t: Memory, m: Memory, front: bool, b: ArrayId) {
    var slot := |m.ost| - 2;
    && slot >= 0 && m.ost[slot].Ref? && m.ost[slot].id < |m.h|
    && t.others == m.others && t.ost == m.ost[..slot] + [m.ost[slot].(id := b)]
    && Reads(t.h, m.h, b, Joined(m.h[m.ost[slot].id].items, m.ost[slot + 1], front))
  }

  /** Extending does that, keeps the counts right, and takes a new array exactly when someone
      else holds the old one. */
  lemma {:induction false} ExtendIsolates(m: Memory, tid: Kind, front: bool) returns (b: ArrayId)
    requires Inv(m) && ExtendError(m, tid).None?
    ensures Inv(Extend(m, tid, front)) && Extended(Extend(m, tid, front), m, front, b)
    ensures m.ost[|m.ost| - 2].kind == tid && m.h[m.ost[|m.ost| - 2].id].access == UNLIMITED
    ensures if m.ost[|m.ost| - 2].id in Elsewhere(m, |m.ost| - 2) then b == |m.h| else b == m.ost[|m.ost| - 2].id
    ensures
      var was, now, v := m.h[m.ost[|m.ost| - 2].id].items, Extend(m, tid, front).h[b].items, m.ost[|m.ost| - 1];
      && |now| == |was| + 1
      && if front then now[0] == v && now[1..] == was else now[..|was|] == was && now[|was|] == v
  {
    hide Inv, Cow, Elsewhere, PopToken, Joined, Reads, OwnCopy, Copied;
    var slot := |m.ost| - 2;
    CowKeeps(m, slot);
    ClonedWhenShared(m, slot);
    var c := Cow(m, slot);
    OwnCopySlot(c, m, slot);
    b := c.ost[slot].id;
    StoredKeeps(c, slot, front);
    StoredThenPopped(m, c, slot, front);
    assert Extend(m, tid, front) == PopToken(Stored(c, slot, front));
    hide *;
    JoinedItems(m.h[m.ost[slot].id].items, m.ost[slot + 1], front);
    ReadsItems(Extend(m, tid, front).h, m.h, b, Joined(m.h[m.ost[slot].id].items, m.ost[slot + 1], front));
  }

  /** `prepend` puts the value in front of the items, `append` behind them. */
  lemma JoinedItems(items: seq<Value>, v: Value, front: bool)
    ensures
      var now := Joined(items, v, front);
      && |now| == |items| + 1
      && if front then now[0] == v && now[1..] == items else now[..|items|] == items && now[|items|] == v
  {}

  lemma ReadsItems(g: Heap, h: Heap, b: ArrayId, items: seq<Value>)
    requires Reads(g, h, b, items)
    ensures b < |g| && g[b].items == items
  {}

  lemma OwnCopySlot(c: Memory, m: Memory, slot: nat)
    requires OwnCopy(c, m, slot)
    ensures
      && slot < |m.ost| == |c.ost| && m.ost[slot].Ref? && m.ost[slot].id < |m.h|
      && c.ost[slot] == m.ost[slot].(id := c.ost[slot].id)
      && c.ost[slot].id == (if m.h[m.ost[slot].id].refs <= 1 then m.ost[slot].id else |m.h|)
      && c.ost[slot].id < |c.h| && c.h[c.ost[slot].id].refs == 1
  {}

  lemma {:induction false} StoredThenPopped(m: Memory, c: Memory, slot: nat, front: bool)
    requires OwnCopy(c, m, slot) && slot == |m.ost| - 2 && Inv(c) && Inv(Stored(c, slot, front))
    ensures
      var s := Stored(c, slot, front);
      var t, a := PopToken(s), m.ost[slot].id;
      && Inv(t) && t.others == m.others && t.ost == m.ost[..slot] + [c.ost[slot]]
      && Reads(t.h, m.h, c.ost[slot].id, Joined(m.h[a].items, m.ost[slot + 1], front))
  {
    hide Inv, Joined, Reads, Survives, PopToken;
    var s := Stored(c, slot, front);
    StoredReads(m, c, slot, front);
    SpareAfterStore(c, slot, front);
    assert s.ost == c.ost == m.ost[slot := c.ost[slot]] && s.others == c.others == m.others;
    assert s.ost[..slot + 1] == m.ost[..slot] + [c.ost[slot]];
    hide Stored, OwnCopy;
    PopSpare(s, m.h, c.ost[slot].id, Joined(m.h[m.ost[slot].id].items, m.ost[slot + 1], front));
  }

  /** Whoever else holds an array, whichever it is, reads in it what was there before. */
  lemma {:induction false} OthersReadTheOld(m: Memory, tid: Kind, front: bool, x: ArrayId)
    requires Inv(m) && ExtendError(m, tid).None? && x in Elsewhere(m, |m.ost| - 2)
    ensures x < |m.h| <= |Extend(m, tid, front).h| && Extend(m, tid, front).h[x].items == m.h[x].items
  {
    hide Extend, Elsewhere, Inv, Joined;
    var b := ExtendIsolates(m, tid, front);
    HeldElsewhereExists(m, |m.ost| - 2, x);
  }

  lemma HeldElsewhereExists(m: Memory, slot: nat, x: ArrayId)
    requires Inv(m) && slot < |m.ost| && x in Elsewhere(m, slot)
    ensures x < |m.h|
  {
    SlotSplits(m, slot);
    assert x in Holders(m) + Cells(m.h);
    hide Holders, Cells, Elsewhere;
  }

  lemma SpareAfterStore(c: Memory, slot: nat, front: bool)
    requires Inv(c) && slot < |c.ost| && c.ost[slot].Ref? && c.ost[slot].id < |c.h| && c.h[c.ost[slot].id].refs > 0
    ensures
      var s, v := Stored(c, slot, front), c.ost[|c.ost| - 1];
      v.Ref? ==> v.id < |s.h| && s.h[v.id].refs > 1
  {
    if c.ost[|c.ost| - 1].Ref? { SlotIsHeld(c, |c.ost| - 1); }
    hide Inv;
  }
}
