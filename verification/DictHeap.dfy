/** Dictionaries with their map nodes and reference counts. A cached pointer is the number of
    a node; numbers are never used twice, so that a pointer into an erased entry is one that
    no node has. */
module DictHeap {
  import opened Tokens

  type NodeId = nat
  type DictId = nat

  /** `marks` counts the occurrences on the dictionary stack, as the code keeps it. */
  datatype Dict = Dict(entries: map<Name, NodeId>, refs: nat, marks: int, writable: bool)

  datatype Heap = Heap(nodes: map<NodeId, Token>, next: NodeId, dicts: seq<Dict>)

  // ---- operations ----

  function Fresh(h: Heap): Heap {
    h.(dicts := h.dicts + [Dict(map[], 1, 0, true)])
  }

  /** Binds n to t; an existing entry keeps its node. */
  function Insert(h: Heap, id: DictId, n: Name, t: Token): Heap
    requires id < |h.dicts|
  {
    var x := h.dicts[id];
    if n in x.entries then h.(nodes := h.nodes[x.entries[n] := t])
    else
      h.(nodes := h.nodes[h.next := t], next := h.next + 1,
         dicts := h.dicts[id := x.(entries := x.entries[n := h.next])])
  }

  function Erase(h: Heap, id: DictId, n: Name): Heap
    requires id < |h.dicts| && n in h.dicts[id].entries
  {
    var x := h.dicts[id];
    h.(nodes := h.nodes - {x.entries[n]}, dicts := h.dicts[id := x.(entries := x.entries - {n})])
  }

  function EraseAll(h: Heap, id: DictId): Heap
    requires id < |h.dicts|
  {
    var x := h.dicts[id];
    h.(nodes := h.nodes - x.entries.Values, dicts := h.dicts[id := x.(entries := map[])])
  }

  function Acquire(h: Heap, id: DictId): Heap
    requires id < |h.dicts|
  {
    h.(dicts := h.dicts[id := h.dicts[id].(refs := h.dicts[id].refs + 1)])
  }

  function Decrease(h: Heap, id: DictId): Heap
    requires id < |h.dicts| && h.dicts[id].refs > 0
  {
    h.(dicts := h.dicts[id := h.dicts[id].(refs := h.dicts[id].refs - 1)])
  }

  /** The last reference takes the dictionary with it. */
  function Release(h: Heap, id: DictId): Heap
    requires id < |h.dicts| && h.dicts[id].refs > 0
  {
    var g := Decrease(h, id);
    if g.dicts[id].refs == 0 then EraseAll(g, id) else g
  }

  function MarkBy(h: Heap, id: DictId, k: int): Heap
    requires id < |h.dicts|
  {
    h.(dicts := h.dicts[id := h.dicts[id].(marks := h.dicts[id].marks + k)])
  }

  // ---- ownership ----

  /** Every entry has a node of its own. */
  ghost predicate Owned(h: Heap) {
    && (forall p :: p in h.nodes ==> p < h.next)
    && (forall i, n :: 0 <= i < |h.dicts| && n in h.dicts[i].entries ==> h.dicts[i].entries[n] in h.nodes)
    && (forall i, m, j, n ::
          0 <= i < |h.dicts| && 0 <= j < |h.dicts| && m in h.dicts[i].entries && n in h.dicts[j].entries ==>
            h.dicts[i].entries[m] == h.dicts[j].entries[n] ==> i == j && m == n)
  }

  /** Every reference count is the number of the owners, and only owned dictionaries have
      entries. */
  ghost predicate Balanced(h: Heap, owners: multiset<DictId>) {
    && (forall id :: id in owners ==> id < |h.dicts|)
    && (forall id :: 0 <= id < |h.dicts| ==> h.dicts[id].refs == owners[id])
    && (forall id :: 0 <= id < |h.dicts| && h.dicts[id].refs == 0 ==> h.dicts[id].entries == map[])
  }

  function Entries(h: Heap, id: DictId): map<Name, NodeId> {
    if id < |h.dicts| then h.dicts[id].entries else map[]
  }

  /** What a dictionary binds. */
  function View(h: Heap, id: DictId): (v: Dictionary)
    ensures forall n :: n in v <==> n in Entries(h, id) && Entries(h, id)[n] in h.nodes
  {
    var e := Entries(h, id);
    map n | n in e && e[n] in h.nodes :: h.nodes[e[n]]
  }

  /** The dictionaries in `ids` are the same in g as in h, node by node. */
  ghost predicate Same(g: Heap, h: Heap, ids: multiset<DictId>) {
    forall id :: id in ids ==>
      Entries(g, id) == Entries(h, id) && View(g, id) == View(h, id)
  }

  lemma SameTrans(f: Heap, g: Heap, h: Heap, few: multiset<DictId>, many: multiset<DictId>)
    requires Same(f, g, few) && Same(g, h, many) && few <= many
    ensures Same(f, h, few)
  {}

  lemma FewerAreSame(g: Heap, h: Heap, few: multiset<DictId>, many: multiset<DictId>)
    requires Same(g, h, many) && few <= many
    ensures Same(g, h, few)
  {}

  lemma AcquireBalances(h: Heap, owners: multiset<DictId>, id: DictId)
    requires Balanced(h, owners) && Owned(h) && id in owners
    ensures
      var g := Acquire(h, id);
      Balanced(g, owners + multiset{id}) && Owned(g) && Same(g, h, owners)
  {
  }

  /** Erasing the entries of one dictionary leaves all others alone. */
  lemma EraseAllKeeps(h: Heap, id: DictId)
    requires Owned(h) && id < |h.dicts|
    ensures
      var g := EraseAll(h, id);
      && Owned(g) && |g.dicts| == |h.dicts|
      && forall j :: 0 <= j < |h.dicts| && j != id ==> g.dicts[j] == h.dicts[j] && View(g, j) == View(h, j)
  {}

  lemma DecreaseKeeps(h: Heap, id: DictId)
    requires Owned(h) && id < |h.dicts| && h.dicts[id].refs > 0
    ensures
      var g := Decrease(h, id);
      Owned(g) && forall j :: 0 <= j < |h.dicts| ==> View(g, j) == View(h, j)
  {
  }

  lemma ReleaseKeeps(h: Heap, owners: multiset<DictId>, id: DictId)
    requires Balanced(h, owners) && Owned(h) && id in owners
    ensures var g := Release(h, id); Owned(g) && Same(g, h, owners - multiset{id})
  {
    var g := Decrease(h, id);
    DecreaseKeeps(h, id);
    hide Owned, View;
    if g.dicts[id].refs == 0 {
      EraseAllKeeps(g, id);
    }
  }

  lemma ReleaseBalances(h: Heap, owners: multiset<DictId>, id: DictId)
    requires Balanced(h, owners) && Owned(h) && id in owners
    ensures id < |h.dicts| && h.dicts[id].refs > 0
    ensures
      var g := Release(h, id);
      Balanced(g, owners - multiset{id}) && Owned(g) && Same(g, h, owners - multiset{id})
  {
    ReleaseKeeps(h, owners, id);
    hide Owned, View, Same;
  }

  lemma ReleaseMarks(h: Heap, id: DictId)
    requires id < |h.dicts| && h.dicts[id].refs > 0
    ensures |Release(h, id).dicts| == |h.dicts|
    ensures forall j :: 0 <= j < |h.dicts| ==> Release(h, id).dicts[j].marks == h.dicts[j].marks
  {
  }

  lemma FirstOwned(ids: seq<DictId>, owners: multiset<DictId>)
    requires ids != [] && multiset(ids) <= owners
    ensures ids[0] in owners && multiset(ids) == multiset{ids[0]} + multiset(ids[1..])
    ensures multiset(ids[1..]) <= owners - multiset{ids[0]}
  {
    assert ids == [ids[0]] + ids[1..];
    assert ids[0] in multiset(ids);
  }

  lemma MarkKeeps(h: Heap, owners: multiset<DictId>, id: DictId, k: int)
    requires Owned(h) && Balanced(h, owners) && id < |h.dicts|
    ensures
      var g := MarkBy(h, id, k);
      && Owned(g) && Balanced(g, owners)
      && forall j :: 0 <= j < |h.dicts| ==> View(g, j) == View(h, j) && g.dicts[j].entries == h.dicts[j].entries
  {
  }

  /** One reference more, and k occurrences on the stack. */
  function Enter(h: Heap, id: DictId, k: int): Heap
    requires id < |h.dicts|
  {
    MarkBy(Acquire(h, id), id, k)
  }

  lemma EnterBalances(h: Heap, owners: multiset<DictId>, id: DictId, k: int)
    requires Balanced(h, owners) && Owned(h) && id in owners
    ensures id < |h.dicts|
    ensures
      var g := Enter(h, id, k);
      && Balanced(g, owners + multiset{id}) && Owned(g) && Same(g, h, owners)
      && |g.dicts| == |h.dicts|
      && forall j :: 0 <= j < |h.dicts| ==>
           g.dicts[j].marks == h.dicts[j].marks + k * multiset{id}[j] && g.dicts[j].writable == h.dicts[j].writable
  {
    AcquireBalances(h, owners, id);
    assert id < |h.dicts|;
    hide Owned, View, Balanced, Same;
    var g := Acquire(h, id);
    MarkKeeps(g, owners + multiset{id}, id, k);
    EnterMarks(h, id, k);
    SameByView(Enter(h, id, k), g, owners);
    SameTrans(Enter(h, id, k), g, h, owners, owners);
  }

  lemma EnterMarks(h: Heap, id: DictId, k: int)
    requires id < |h.dicts|
    ensures
      var g := Enter(h, id, k);
      && |g.dicts| == |h.dicts|
      && forall j :: 0 <= j < |h.dicts| ==>
           g.dicts[j].marks == h.dicts[j].marks + k * multiset{id}[j] && g.dicts[j].writable == h.dicts[j].writable
  {}

  lemma SameByView(g: Heap, h: Heap, ids: multiset<DictId>)
    requires |g.dicts| == |h.dicts|
    requires forall j :: 0 <= j < |h.dicts| ==> View(g, j) == View(h, j) && g.dicts[j].entries == h.dicts[j].entries
    ensures Same(g, h, ids)
  {}

  ghost function EnterAll(h: Heap, ids: seq<DictId>, k: int, owners: multiset<DictId>): (g: Heap)
    requires Balanced(h, owners) && Owned(h) && multiset(ids) <= owners
    ensures Balanced(g, owners + multiset(ids)) && Owned(g) && Same(g, h, owners)
    ensures |g.dicts| == |h.dicts|
    ensures forall j :: 0 <= j < |h.dicts| ==> g.dicts[j].marks == h.dicts[j].marks + k * multiset(ids)[j]
    decreases |ids|
  {
    if ids == [] then h
    else
      FirstEntered(h, ids, k, owners);
      var rest := EnterAll(Enter(h, ids[0], k), ids[1..], k, owners + multiset{ids[0]});
      RestEntered(rest, h, ids, k, owners);
      rest
  }

  lemma FirstEntered(h: Heap, ids: seq<DictId>, k: int, owners: multiset<DictId>)
    requires Balanced(h, owners) && Owned(h) && ids != [] && multiset(ids) <= owners
    ensures ids[0] < |h.dicts| && multiset(ids[1..]) <= owners + multiset{ids[0]}
    ensures
      var g := Enter(h, ids[0], k);
      Balanced(g, owners + multiset{ids[0]}) && Owned(g) && |g.dicts| == |h.dicts|
  {
    hide Balanced, Owned, Same, Enter;
    FirstOwned(ids, owners);
    EnterBalances(h, owners, ids[0], k);
  }

  lemma RestEntered(r: Heap, h: Heap, ids: seq<DictId>, k: int, owners: multiset<DictId>)
    requires Balanced(h, owners) && Owned(h) && ids != [] && multiset(ids) <= owners && ids[0] < |h.dicts|
    requires
      var g := Enter(h, ids[0], k);
      && Balanced(r, owners + multiset{ids[0]} + multiset(ids[1..])) && Same(r, g, owners + multiset{ids[0]})
      && |r.dicts| == |g.dicts|
      && forall j :: 0 <= j < |g.dicts| ==> r.dicts[j].marks == g.dicts[j].marks + k * multiset(ids[1..])[j]
    ensures Balanced(r, owners + multiset(ids)) && Same(r, h, owners) && |r.dicts| == |h.dicts|
    ensures forall j :: 0 <= j < |h.dicts| ==> r.dicts[j].marks == h.dicts[j].marks + k * multiset(ids)[j]
  {
    hide Balanced, Owned, Same, Enter;
    FirstOwned(ids, owners);
    EnterBalances(h, owners, ids[0], k);
    assert owners + multiset{ids[0]} + multiset(ids[1..]) == owners + multiset(ids);
    FewerAreSame(r, Enter(h, ids[0], k), owners, owners + multiset{ids[0]});
    SameTrans(r, Enter(h, ids[0], k), h, owners, owners);
    MarksAdd(k, multiset{ids[0]}, multiset(ids[1..]));
  }

  /** One reference less, and one occurrence on the stack. */
  function Leave(h: Heap, id: DictId): Heap
    requires id < |h.dicts| && h.dicts[id].refs > 0
  {
    Release(MarkBy(h, id, -1), id)
  }

  lemma LeaveBalances(h: Heap, owners: multiset<DictId>, id: DictId)
    requires Balanced(h, owners) && Owned(h) && id in owners
    ensures
      var g := Leave(h, id);
      && Balanced(g, owners - multiset{id}) && Owned(g) && Same(g, h, owners - multiset{id})
      && |g.dicts| == |h.dicts|
      && forall j :: 0 <= j < |h.dicts| ==> g.dicts[j].marks == h.dicts[j].marks - multiset{id}[j]
  {
    MarkKeeps(h, owners, id, -1);
    var m := MarkBy(h, id, -1);
    ReleaseBalances(m, owners, id);
    assert Same(m, h, owners);
    assert owners - multiset{id} <= owners;
    hide Owned, View, Balanced, Same;
    SameTrans(Leave(h, id), m, h, owners - multiset{id}, owners);
  }

  lemma MarksAdd(k: int, a: multiset<DictId>, b: multiset<DictId>)
    ensures forall j :: k * a[j] + k * b[j] == k * (a + b)[j]
  {}

  /** Releases one by one, in order; a dictionary may occur more than once. */
  ghost function ReleaseAll(h: Heap, ids: seq<DictId>, owners: multiset<DictId>): (g: Heap)
    requires Balanced(h, owners) && Owned(h) && multiset(ids) <= owners
    ensures Balanced(g, owners - multiset(ids)) && Owned(g) && Same(g, h, owners - multiset(ids))
    ensures |g.dicts| == |h.dicts|
    ensures forall j :: 0 <= j < |h.dicts| ==> g.dicts[j].marks == h.dicts[j].marks
    decreases |ids|
  {
    if ids == [] then h
    else
      FirstOwned(ids, owners);
      ReleaseBalances(h, owners, ids[0]);
      ReleaseMarks(h, ids[0]);
      var g := Release(h, ids[0]);
      var rest := ReleaseAll(g, ids[1..], owners - multiset{ids[0]});
      SameTrans(rest, g, h, owners - multiset(ids), owners - multiset{ids[0]});
      rest
  }

  // ---- changes of one dictionary ----

  /** In g the dictionary id binds what v says, and the others are as in h. */
  ghost predicate OnlyChanges(g: Heap, h: Heap, id: DictId, v: Dictionary)
    requires id < |h.dicts|
  {
    && |g.dicts| == |h.dicts|
    && (forall j :: 0 <= j < |h.dicts| && j != id ==> g.dicts[j] == h.dicts[j] && View(g, j) == View(h, j))
    && g.dicts[id] == h.dicts[id].(entries := g.dicts[id].entries) && View(g, id) == v
    && (forall n :: n in h.dicts[id].entries && n in g.dicts[id].entries ==>
          g.dicts[id].entries[n] == h.dicts[id].entries[n])
  }

  /** A dictionary whose nodes stay as they are binds what it bound. */
  lemma ViewFrame(g: Heap, h: Heap, j: DictId)
    requires j < |h.dicts| == |g.dicts| && g.dicts[j].entries == h.dicts[j].entries
    requires forall m :: m in h.dicts[j].entries ==>
      var p := h.dicts[j].entries[m];
      (p in g.nodes <==> p in h.nodes) && (p in h.nodes ==> g.nodes[p] == h.nodes[p])
    ensures View(g, j) == View(h, j)
  {}

  /** The node of an entry belongs to no other. */
  lemma NodeIsOwn(h: Heap, id: DictId, n: Name)
    requires Owned(h) && id < |h.dicts| && n in h.dicts[id].entries
    ensures forall j, m :: 0 <= j < |h.dicts| && j != id && m in h.dicts[j].entries ==>
              h.dicts[j].entries[m] != h.dicts[id].entries[n]
    ensures forall m :: m in h.dicts[id].entries && m != n ==> h.dicts[id].entries[m] != h.dicts[id].entries[n]
    ensures h.dicts[id].entries[n] in h.nodes
  {}

  lemma OverwrittenIsOwned(h: Heap, id: DictId, n: Name, t: Token)
    requires Owned(h) && id < |h.dicts| && n in h.dicts[id].entries
    ensures Owned(h.(nodes := h.nodes[h.dicts[id].entries[n] := t]))
  {}

  lemma OverwriteKeeps(h: Heap, id: DictId, n: Name, t: Token)
    requires Owned(h) && id < |h.dicts| && n in h.dicts[id].entries
    ensures
      var g := h.(nodes := h.nodes[h.dicts[id].entries[n] := t]);
      Owned(g) && OnlyChanges(g, h, id, View(h, id)[n := t])
  {
    hide Owned;
    var g := h.(nodes := h.nodes[h.dicts[id].entries[n] := t]);
    OverwrittenIsOwned(h, id, n, t);
    NodeIsOwn(h, id, n);
    assert View(g, id) == View(h, id)[n := t];
    hide View;
    forall j | 0 <= j < |h.dicts| && j != id ensures View(g, j) == View(h, j) {
      ViewFrame(g, h, j);
    }
  }

  lemma NodesAreOld(h: Heap)
    requires Owned(h)
    ensures forall j, m :: 0 <= j < |h.dicts| && m in h.dicts[j].entries ==> h.dicts[j].entries[m] < h.next
  {}

  lemma ExtendIsOwned(h: Heap, id: DictId, n: Name, t: Token)
    requires Owned(h) && id < |h.dicts| && n !in h.dicts[id].entries
    ensures Owned(Insert(h, id, n, t))
  {
    NodesAreOld(h);
  }

  lemma ExtendedView(h: Heap, id: DictId, n: Name, t: Token)
    requires id < |h.dicts| && n !in h.dicts[id].entries
    requires forall m :: m in h.dicts[id].entries ==> h.dicts[id].entries[m] < h.next
    ensures View(Insert(h, id, n, t), id) == View(h, id)[n := t]
  {}

  lemma ExtendKeeps(h: Heap, id: DictId, n: Name, t: Token)
    requires Owned(h) && id < |h.dicts| && n !in h.dicts[id].entries
    ensures OnlyChanges(Insert(h, id, n, t), h, id, View(h, id)[n := t])
  {
    hide Owned, View;
    var g := Insert(h, id, n, t);
    NodesAreOld(h);
    ExtendedView(h, id, n, t);
    forall j | 0 <= j < |h.dicts| && j != id ensures View(g, j) == View(h, j) {
      ViewFrame(g, h, j);
    }
  }

  lemma InsertKeeps(h: Heap, id: DictId, n: Name, t: Token)
    requires Owned(h) && id < |h.dicts|
    ensures Owned(Insert(h, id, n, t))
    ensures n in Insert(h, id, n, t).dicts[id].entries
    ensures OnlyChanges(Insert(h, id, n, t), h, id, View(h, id)[n := t])
  {
    if n in h.dicts[id].entries {
      OverwriteKeeps(h, id, n, t);
    } else {
      ExtendIsOwned(h, id, n, t);
      ExtendKeeps(h, id, n, t);
    }
    hide Owned, OnlyChanges, View;
  }

  lemma EraseKeeps(h: Heap, id: DictId, n: Name)
    requires Owned(h) && id < |h.dicts| && n in h.dicts[id].entries
    ensures Owned(Erase(h, id, n))
    ensures OnlyChanges(Erase(h, id, n), h, id, View(h, id) - {n})
  {
    hide Owned;
    var g := Erase(h, id, n);
    ErasedIsOwned(h, id, n);
    NodeIsOwn(h, id, n);
    assert View(g, id) == View(h, id) - {n};
    hide View;
    forall j | 0 <= j < |h.dicts| && j != id ensures View(g, j) == View(h, j) {
      ViewFrame(g, h, j);
    }
  }

  lemma ErasedIsOwned(h: Heap, id: DictId, n: Name)
    requires Owned(h) && id < |h.dicts| && n in h.dicts[id].entries
    ensures Owned(Erase(h, id, n))
  {}

  lemma EraseAllChanges(h: Heap, id: DictId)
    requires Owned(h) && id < |h.dicts|
    ensures Owned(EraseAll(h, id)) && OnlyChanges(EraseAll(h, id), h, id, map[])
  {}

  lemma ChangeBalances(g: Heap, h: Heap, id: DictId, v: Dictionary, owners: multiset<DictId>)
    requires id < |h.dicts| && OnlyChanges(g, h, id, v) && Balanced(h, owners) && id in owners
    ensures Balanced(g, owners)
  {
  }
}
