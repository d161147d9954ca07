/** Sequences of dictionary operators, and what holds after all of them. */
module DictCommands {
  import opened Tokens
  import opened DictHeap
  import opened DictStack
  import opened DictOps
  import opened DictMoves
  import opened DictSnapshot
  import opened DictRuns

  /** The coming and going of tokens that refer to a dictionary or to a listing. */
  datatype TokenMove =
    | MakeDict
    | CopyToken(id: DictId)
    | DropToken(id: DictId)
    | CopyListing(a: ArrayId)
    | DropListingToken(a: ArrayId)
    | MakeListing(items: seq<DictId>)
    | PutItem(a: ArrayId, k: nat, id: DictId)

  datatype Command =
    | LookupName(n: Name)
    | BaselookupName(n: Name)
    | DefName(n: Name, t: Token)
    | UndefName(n: Name)
    | BasedefName(n: Name, t: Token)
    | PutName(id: DictId, n: Name, t: Token)
    | ClearDict(id: DictId)
    | Begin(id: DictId)
    | End
    | Dictstack
    | Restoredstack(a: ArrayId)
    | Cleardictstack(system: DictId, global: DictId, user: DictId)
    | Outside(move: TokenMove)

  predicate Writable(h: Heap, id: DictId) {
    id < |h.dicts| && h.dicts[id].writable
  }

  ghost predicate Movable(s: Stack, m: TokenMove)
    requires Inv(s)
  {
    match m
    case MakeDict => true
    case CopyToken(id) => id in Owners(s)
    case DropToken(id) => id in s.held
    case CopyListing(a) => a < |s.arrays| && s.arrays[a].refs > 0
    case DropListingToken(a) => a in s.heldArrays
    case MakeListing(items) => multiset(items) <= s.held
    case PutItem(a, k, id) =>
      a in s.heldArrays && s.arrays[a].writable && k < |s.arrays[a].items| && id in s.held
  }

  /** A command whose operands do not exist or that raises an error changes nothing. */
  ghost predicate Applies(s: Stack, c: Command)
    requires Ready(s)
  {
    match c
    case DefName(_, _) => Writable(s.h, s.d[0])
    case UndefName(n) => Writable(s.h, s.d[0]) && n in Entries(s.h, s.d[0])
    case PutName(id, _, _) => id in s.held && Writable(s.h, id)
    case ClearDict(id) => id in s.held && Writable(s.h, id)
    case Begin(id) => id in s.held
    case End => |s.d| > PERMANENT
    case Restoredstack(a) => a in s.heldArrays && s.arrays[a].items != []
    case Cleardictstack(x, y, z) => x in s.held && y in s.held && z in s.held
    case Outside(m) => Movable(s, m)
    case _ => true
  }

  ghost function Move(s: Stack, m: TokenMove): Stack
    requires Inv(s) && Movable(s, m)
  {
    match m
    case MakeDict => NewDict(s)
    case CopyToken(id) => CopyDict(s, id)
    case DropToken(id) => DropDict(s, id)
    case CopyListing(a) => HoldArray(s, a)
    case DropListingToken(a) => DropArray(s, a)
    case MakeListing(items) => BuildListing(s, items)
    case PutItem(a, k, id) => PutListing(s, a, k, id)
  }

  ghost function Exec(s: Stack, c: Command): Stack
    requires Ready(s)
  {
    if !Applies(s, c) then s
    else
      match c
      case LookupName(n) => Find(s, n).0
      case BaselookupName(n) => Baselookup(s, n).0
      case DefName(n, t) => DictOps.Def(s, n, t)
      case UndefName(n) => Undef(s, n)
      case BasedefName(n, t) => BasedefKeeps(s, n, t); Basedef(s, n, t)
      case PutName(id, n, t) => Put(s, id, n, t)
      case ClearDict(id) => Cleardict(s, id)
      case Begin(id) => Push(s, id)
      case End => DictMoves.Pop(s)
      case Dictstack => Snapshot(s).0
      case Restoredstack(a) => Restore(s, a)
      case Cleardictstack(x, y, z) => Reset(s, x, y, z)
      case Outside(m) => Move(s, m)
  }

  /** No `baselookup` writes a pointer that a binding above the base hides. */
  ghost predicate Safe(s: Stack, c: Command)
    requires Ready(s)
  {
    c.BaselookupName? && Fills(s, c.n) ==> Unshadowed(s.h, s.d, s.base.value, c.n)
  }

  lemma CopyTokenKeeps(s: Stack, id: DictId)
    requires Inv(s) && id in Owners(s)
    ensures id < |s.h.dicts| && Inv(CopyDict(s, id)) && (Coherent(s) ==> Coherent(CopyDict(s, id)))
  {
    CopyDictKeeps(s, id);
  }

  lemma CopyListingKeeps(s: Stack, a: ArrayId)
    requires Inv(s) && a < |s.arrays| && s.arrays[a].refs > 0
    ensures Inv(HoldArray(s, a)) && Evolves(HoldArray(s, a).arrays, s.arrays)
    ensures Coherent(s) ==> Coherent(HoldArray(s, a))
  {
    assert Same(s.h, s.h, Owners(s));
    EvolvesItself(s.arrays);
    Handed(s, s, a);
  }

  /** What tokens outside do touches neither the stack nor its caches. */
  lemma MoveKeeps(s: Stack, m: TokenMove)
    requires Inv(s) && Movable(s, m)
    ensures
      var t := Move(s, m);
      Inv(t) && t.d == s.d && t.base == s.base && Evolves(t.arrays, s.arrays) && (Coherent(s) ==> Coherent(t))
  {
    EvolvesItself(s.arrays);
    hide Counted, Coherent, BaseCoherent, Anchored, Evolves, Owners, Acquire, Release, Fresh;
    match m
    case MakeDict => NewDictKeeps(s);
    case CopyToken(id) => CopyTokenKeeps(s, id);
    case DropToken(id) => DropDictKeeps(s, id);
    case CopyListing(a) => CopyListingKeeps(s, a);
    case DropListingToken(a) => DropArrayKeeps(s, a);
    case MakeListing(items) => BuildListingKeeps(s, items);
    case PutItem(a, k, id) => PutListingKeeps(s, a, k, id);
  }

  /** Every command, in every state, keeps the invariant and rewrites no read-only array.
      Coherent caches it keeps exactly if it is safe. */
  lemma ExecKeeps(s: Stack, c: Command)
    requires Ready(s)
    ensures Ready(Exec(s, c)) && Evolves(Exec(s, c).arrays, s.arrays)
    ensures Coherent(s) ==> (Coherent(Exec(s, c)) <==> Safe(s, c))
  {
    EvolvesItself(s.arrays);
    hide Inv, Coherent, Evolves, Reversed, Search, Unshadowed, Entries, OnlyChanges, Owners, View, Fills;
    hide Find, Baselookup, Push, DictMoves.Pop, Snapshot, Restore, Reset, Insert, Erase, EraseAll;
    hide Writable, Move, Movable;
    if Applies(s, c) {
      match c
      case LookupName(n) => FindKeeps(s, n);
      case BaselookupName(n) => BaselookupExec(s, n);
      case Begin(id) => BeginKeeps(s, id);
      case End => PopKeeps(s);
      case Dictstack => SnapshotKeeps(s);
      case Restoredstack(a) => RestoreKeeps(s, a);
      case Cleardictstack(x, y, z) => ResetKeeps(s, x, y, z);
      case DefName(n, t) => DefKeeps(s, n, t);
      case UndefName(n) => UndefKeeps(s, n);
      case BasedefName(n, t) => BasedefKeeps(s, n, t);
      case PutName(id, n, t) => PutHeldKeeps(s, id, n, t);
      case ClearDict(id) => ClearHeldKeeps(s, id);
      case Outside(m) => MoveKeeps(s, m);
    }
  }

  lemma BaselookupExec(s: Stack, n: Name)
    requires Inv(s)
    ensures
      var t := Baselookup(s, n).0;
      && Inv(t) && t == s.(cache := t.cache, basecache := t.basecache)
      && (Coherent(s) ==> (Coherent(t) <==> (Fills(s, n) ==> Unshadowed(s.h, s.d, s.base.value, n))))
  {
    BaselookupKeeps(s, n);
    BaselookupIsBase(s, n);
    if Coherent(s) { BaselookupCoherent(s, n); }
  }

  ghost function Run(s: Stack, cs: seq<Command>): (t: Stack)
    requires Ready(s)
    ensures Ready(t)
    decreases |cs|
  {
    if cs == [] then s
    else
      ExecKeeps(s, cs[0]);
      Run(Exec(s, cs[0]), cs[1..])
  }

  /** A run whose every `baselookup` is safe. */
  ghost predicate SafeRun(s: Stack, cs: seq<Command>)
    requires Ready(s)
    decreases |cs|
  {
    cs != [] ==> Safe(s, cs[0]) && (ExecKeeps(s, cs[0]); SafeRun(Exec(s, cs[0]), cs[1..]))
  }

  lemma {:induction false} RunEvolves(s: Stack, cs: seq<Command>)
    requires Ready(s)
    ensures Evolves(Run(s, cs).arrays, s.arrays)
    decreases |cs|
  {
    if cs == [] {
      EvolvesItself(s.arrays);
    } else {
      ExecKeeps(s, cs[0]);
      RunEvolves(Exec(s, cs[0]), cs[1..]);
      EvolvesTrans(Run(s, cs).arrays, Exec(s, cs[0]).arrays, s.arrays);
    }
  }

  lemma {:induction false} SafeRunIsCoherent(s: Stack, cs: seq<Command>)
    requires Ready(s) && Coherent(s) && SafeRun(s, cs)
    ensures Coherent(Run(s, cs))
    decreases |cs|
  {
    if cs != [] {
      ExecKeeps(s, cs[0]);
      SafeRunIsCoherent(Exec(s, cs[0]), cs[1..]);
    }
  }

  /** After a safe run a cached lookup finds what the reference machine's search finds, and
      what it points at is alive. */
  lemma LookupsAgree(s: Stack, cs: seq<Command>, n: Name)
    requires Ready(s) && Coherent(s) && SafeRun(s, cs)
    ensures
      var t := Run(s, cs);
      var p := Find(t, n).1;
      && (p.Some? ==> p.value in t.h.nodes)
      && Lookup(Meaning(t.h, t.d), n) == if p.Some? then Some(t.h.nodes[p.value]) else None
  {
    SafeRunIsCoherent(s, cs);
    FindIsSearch(Run(s, cs), n);
  }

  /** After any run, safe or not, no lookup gives a dangling pointer: what it gives is the
      binding of n in some dictionary on the stack, and it gives something exactly when there
      is one. And `baselookup` gives the base's own binding. */
  lemma PointersAreAlive(s: Stack, cs: seq<Command>, n: Name)
    requires Ready(s)
    ensures
      var t := Run(s, cs);
      var (p, q) := (Find(t, n).1, Baselookup(t, n).1);
      && (p.Some? ==> p.value in t.h.nodes && exists id :: Anchor(t.h, t.d, n, p.value, id))
      && (p.Some? <==> Lookup(Meaning(t.h, t.d), n).Some?)
      && q == (if n in Entries(t.h, t.base.value) then Some(Entries(t.h, t.base.value)[n]) else None)
      && (q.Some? ==> q.value in t.h.nodes)
  {
    var t := Run(s, cs);
    FindIsAlive(t, n);
    BaselookupIsBase(t, n);
    OwnedOf(t);
    SearchIsLookup(t.h, t.d, n);
    hide *;
  }

  /** After any run the reference count of a dictionary is the number of its owners, and a
      live snapshot is the stack read from the bottom. */
  lemma CountsAgree(s: Stack, cs: seq<Command>, id: DictId)
    requires Ready(s)
    ensures
      var t := Run(s, cs);
      && (id < |t.h.dicts| ==> t.h.dicts[id].refs == Owners(t)[id] && t.h.dicts[id].marks >= multiset(t.d)[id])
      && (id in t.d ==> id < |t.h.dicts| && t.h.dicts[id].refs > 0)
      && (t.snapshot.Some? ==> t.snapshot.value < |t.arrays| && t.arrays[t.snapshot.value].items == Reversed(t.d))
  {
    var t := Run(s, cs);
    if id in t.d { ListedAreAlive(t, id); }
  }

  /** `dictstack`, any run, `restoredstack`: as long as the program still has the array it
      gets back the list and the base that it saved, whatever happened in between. */
  lemma SnapshotRoundTrip(s: Stack, cs: seq<Command>)
    requires Ready(s)
    ensures Ready(Snapshot(s).0)
    ensures
      var (a, u) := (Snapshot(s).1, Run(Snapshot(s).0, cs));
      a in u.heldArrays ==>
        && u.arrays[a].items != []
        && Ready(Restore(u, a)) && Restore(u, a).d == s.d && Restore(u, a).base == s.base
        && (Coherent(u) ==> Coherent(Restore(u, a)))
  {
    SnapshotKeeps(s);
    var (t, a) := Snapshot(s);
    var u := Run(t, cs);
    if a in u.heldArrays {
      RunEvolves(t, cs);
      HeldListingLives(u, a);
      ReversedTwice(u.arrays[a].items, s.d);
      RestoreKeeps(u, a);
    }
  }

  lemma HeldListingLives(s: Stack, a: ArrayId)
    requires Inv(s) && a in s.heldArrays
    ensures a < |s.arrays| && s.arrays[a].refs > 0
  {
  }
}
