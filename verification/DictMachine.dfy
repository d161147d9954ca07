/** The dictionary stack under its caches is the one that the reference machine searches. */
module DictMachine {
  import opened Tokens
  import opened DictHeap
  import opened DictStack
  import opened DictOps
  import opened DictRuns
  import opened DictCommands
  import M = Machine
  import R = Rebinding

  /** The world of the reference machine over this dictionary stack. */
  function Seen(s: Stack, ost: seq<Token>, err: M.Errors): M.World
    requires s.d != []
  {
    var dicts := Meaning(s.h, s.d);
    M.World(ost, M.Init(dicts), M.Last(dicts), err)
  }

  lemma SeenFinds(s: Stack, ost: seq<Token>, err: M.Errors, n: Name)
    requires s.d != []
    ensures M.Find(Seen(s, ost, err), n) == Lookup(Meaning(s.h, s.d), n)
  {
    var w, dicts := Seen(s, ost, err), Meaning(s.h, s.d);
    M.FindIsTopmost(w, n);
    assert w.below + [w.current] == dicts;
  }

  /** After a safe run a cached lookup finds what the reference machine finds. */
  lemma RunFinds(s: Stack, cs: seq<Command>, n: Name, ost: seq<Token>, err: M.Errors)
    requires Ready(s) && Coherent(s) && SafeRun(s, cs)
    ensures
      var t := Run(s, cs);
      var p := Find(t, n).1;
      && (p.Some? ==> p.value in t.h.nodes)
      && M.Find(Seen(t, ost, err), n) == if p.Some? then Some(t.h.nodes[p.value]) else None
  {
    hide *;
    LookupsAgree(s, cs, n);
    RunIsReady(s, cs);
    SeenFinds(Run(s, cs), ost, err, n);
  }

  lemma RunIsReady(s: Stack, cs: seq<Command>)
    requires Ready(s)
    ensures Run(s, cs).d != []
  {}

  /** `def` is the reference machine's: it binds n and no other name, whatever the stack; and it
      is an update of the top dictionary alone unless that is on the stack twice. */
  lemma DefIsSeen(s: Stack, n: Name, t: Token, ost: seq<Token>, err: M.Errors)
    requires Ready(s)
    ensures s.d[0] < |s.h.dicts|
    ensures
      var w, v := Seen(s, ost, err), Seen(DictOps.Def(s, n, t), ost, err);
      && M.Find(v, n) == Some(t)
      && (forall m :: m != n ==> M.Find(v, m) == M.Find(w, m))
      && (s.d[0] !in s.d[1..] ==> v == w.(current := w.current[n := t]))
  {
    hide *;
    DefChanges(s, n, t);
    var u := DictOps.Def(s, n, t);
    DefMeans(s, u, n, t);
    SeenDefines(s, u, n, t, ost, err);
    WorldDefines(Seen(s, ost, err), Seen(u, ost, err), n, t);
  }

  lemma DefChanges(s: Stack, n: Name, t: Token)
    requires Ready(s)
    ensures Inv(s) && s.d != [] && s.d[0] < |s.h.dicts| && DictOps.Def(s, n, t).d == s.d
    ensures OnlyChanges(DictOps.Def(s, n, t).h, s.h, s.d[0], View(s.h, s.d[0])[n := t])
  {
    hide Inv, Insert, OnlyChanges;
    DefKeeps(s, n, t);
  }

  lemma DefMeans(s: Stack, u: Stack, n: Name, t: Token)
    requires Inv(s) && s.d != [] && u.d == s.d && s.d[0] < |s.h.dicts|
    requires OnlyChanges(u.h, s.h, s.d[0], View(s.h, s.d[0])[n := t])
    ensures forall i :: 0 <= i < |s.d| ==> View(u.h, s.d[i]) == Defined(View(s.h, s.d[i]), s.d[i] == s.d[0], n, t)
  {
    hide Counted, View;
    assert Counted(s);
    forall i | 0 <= i < |s.d| ensures s.d[i] < |s.h.dicts| {
      ListedAreAlive(s, s.d[i]);
    }
  }

  function Defined(d: Dictionary, here: bool, n: Name, t: Token): Dictionary {
    if here then d[n := t] else d
  }

  lemma SeenDefines(s: Stack, u: Stack, n: Name, t: Token, ost: seq<Token>, err: M.Errors)
    requires s.d != [] && u.d == s.d
    requires forall i :: 0 <= i < |s.d| ==> View(u.h, s.d[i]) == Defined(View(s.h, s.d[i]), s.d[i] == s.d[0], n, t)
    ensures
      var w, v := Seen(s, ost, err), Seen(u, ost, err);
      && v == w.(below := v.below, current := w.current[n := t]) && |v.below| == |w.below|
      && (forall i :: 0 <= i < |w.below| ==> v.below[i] == w.below[i] || v.below[i] == w.below[i][n := t])
      && (s.d[0] !in s.d[1..] ==> v.below == w.below)
  {
    hide View;
    var w, v := Seen(s, ost, err), Seen(u, ost, err);
    forall i | 0 <= i < |w.below|
      ensures v.below[i] == Defined(w.below[i], s.d[|s.d| - 1 - i] == s.d[0], n, t)
      ensures s.d[|s.d| - 1 - i] in s.d[1..]
    {
      assert s.d[|s.d| - 1 - i] == s.d[1..][|s.d| - 2 - i];
    }
  }

  lemma WorldDefines(w: M.World, v: M.World, n: Name, t: Token)
    requires v == w.(below := v.below, current := w.current[n := t]) && |v.below| == |w.below|
    requires forall i :: 0 <= i < |w.below| ==> v.below[i] == w.below[i] || v.below[i] == w.below[i][n := t]
    ensures M.Find(v, n) == Some(t) && forall m :: m != n ==> M.Find(v, m) == M.Find(w, m)
  {
    assert R.AgreeOff({n}, w, v);
    forall m | m != n ensures M.Find(v, m) == M.Find(w, m) {
      R.FindAgrees({n}, w, v, m);
    }
  }
}
