/** Binding a name anew makes a difference only to what looks it up, and a bound body does not. */
module Rebinding {
  import opened Tokens
  import opened Machine
  import opened Runs
  import opened Locality
  import opened Loops
  import opened Operators
  import opened Absence
  import opened Binding

  // ---- worlds that differ in what some names are bound to ----

  ghost predicate AgreeOffIn(names: set<Name>, d: Dictionary, e: Dictionary) {
    forall n :: n !in names ==> (n in d <==> n in e) && (n in d ==> d[n] == e[n])
  }

  /** v is w with these names bound anew, or unbound, in any of the dictionaries. */
  ghost predicate AgreeOff(names: set<Name>, w: World, v: World) {
    && w.ost == v.ost && w.err == v.err && |w.below| == |v.below|
    && (forall i :: 0 <= i < |w.below| ==> AgreeOffIn(names, w.below[i], v.below[i]))
    && AgreeOffIn(names, w.current, v.current)
  }

  lemma {:induction false} LookupAgrees(names: set<Name>, ds: seq<Dictionary>, es: seq<Dictionary>, n: Name)
    requires n !in names && |ds| == |es| && forall i :: 0 <= i < |ds| ==> AgreeOffIn(names, ds[i], es[i])
    ensures Lookup(ds, n) == Lookup(es, n)
  {
    if ds != [] {
      var k := |ds| - 1;
      assert AgreeOffIn(names, ds[k], es[k]);
      LookupAgrees(names, ds[..k], es[..k], n);
    }
  }

  lemma FindAgrees(names: set<Name>, w: World, v: World, n: Name)
    requires AgreeOff(names, w, v) && n !in names
    ensures Find(w, n) == Find(v, n)
  {
    LookupAgrees(names, w.below, v.below, n);
  }

  ghost predicate OutsAgree(names: set<Name>, o: Out, q: Out) {
    o.push == q.push && AgreeOff(names, o.w, q.w)
  }

  lemma StacksAgree(names: set<Name>, w: World, v: World)
    requires AgreeOff(names, w, v)
    ensures w.ost == v.ost
    ensures forall n: nat :: n <= |w.ost| ==> AgreeOff(names, Drop(w, n), Drop(v, n))
    ensures forall cmd, e :: AgreeOff(names, Raise(w, cmd, e), Raise(v, cmd, e))
    ensures forall t :: AgreeOff(names, Push(w, t), Push(v, t))
    ensures forall ts :: AgreeOff(names, PushAll(w, ts), PushAll(v, ts))
  {
    hide AgreeOffIn;
  }

  lemma ArithAgrees(names: set<Name>, op: Op, w: World, v: World)
    requires AgreeOff(names, w, v) && |w.ost| >= 2 && (op.Add? || op.Sub?)
    ensures w.ost == v.ost && OutsAgree(names, Arith(op, w), Arith(op, v))
  {
    hide AgreeOff, Drop, Raise, Push;
    StacksAgree(names, w, v);
    StacksAgree(names, Drop(w, 2), Drop(v, 2));
  }

  lemma OperateMapAgrees(names: set<Name>, op: Op, w: World, v: World)
    requires AgreeOff(names, w, v) && (op.Map? || op.MapIndexed? || op.MapThread?) && |w.ost| >= 2
    requires Pick(w.ost, 0).Proc?
    ensures w.ost == v.ost && OutsAgree(names, OperateMap(op, w), OperateMap(op, v))
  {
    hide AgreeOff, RowError, Drop, Raise;
    StacksAgree(names, w, v);
  }

  lemma OperateLoopAgrees(names: set<Name>, op: Op, w: World, v: World)
    requires AgreeOff(names, w, v) && IsLoopOp(op) && |w.ost| >= Arity(op)
    ensures w.ost == v.ost && OutsAgree(names, OperateLoop(op, w), OperateLoop(op, v))
  {
    hide AgreeOff, OperateMap, Drop, Raise;
    StacksAgree(names, w, v);
    if (op.Map? || op.MapIndexed? || op.MapThread?) && Pick(w.ost, 0).Proc? { OperateMapAgrees(names, op, w, v); }
  }

  lemma DefAgrees(names: set<Name>, w: World, v: World, n: Name, t: Token)
    requires AgreeOff(names, w, v)
    ensures AgreeOff(names, w.(current := w.current[n := t]), v.(current := v.current[n := t]))
  {}

  lemma OperateAgrees(names: set<Name>, op: Op, w: World, v: World)
    requires AgreeOff(names, w, v) && !Unwinds(op)
    ensures OutsAgree(names, Operate(op, w), Operate(op, v))
  {
    hide AgreeOff, OperateLoop, Arith, Drop, Raise, Push, PushAll;
    StacksAgree(names, w, v);
    if |w.ost| >= Arity(op) {
      if IsLoopOp(op) { OperateLoopAgrees(names, op, w, v); }
      if op.Add? || op.Sub? { ArithAgrees(names, op, w, v); }
      if op.Exch? { StacksAgree(names, Drop(w, 2), Drop(v, 2)); }
      if op.Def? && Pick(w.ost, 1).Lit? { DefWithTwo(names, w, v); }
    }
  }

  lemma DefWithTwo(names: set<Name>, w: World, v: World)
    requires AgreeOff(names, w, v) && |w.ost| >= 2 && Pick(w.ost, 1).Lit?
    ensures w.ost == v.ost && OutsAgree(names, Operate(Def, w), Operate(Def, v))
  {
    hide AgreeOff;
    StacksAgree(names, w, v);
    DefAgrees(names, Drop(w, 2), Drop(v, 2), Pick(w.ost, 1).name, Pick(w.ost, 0));
  }

  lemma ExhaustAgrees(names: set<Name>, f: Frame, w: World, v: World)
    requires AgreeOff(names, w, v) && f.Walk? && WellFormed(f)
    ensures OutsAgree(names, Exhaust(f, w), Exhaust(f, v))
  {
    hide AgreeOffIn;
  }

  ghost predicate StatesAgree(names: set<Name>, s: State, t: State) {
    s.fs == t.fs && AgreeOff(names, s.w, t.w)
  }

  lemma PerformAgrees(names: set<Name>, op: Op, w: World, v: World, rest: seq<Frame>)
    requires AgreeOff(names, w, v)
    ensures StatesAgree(names, Perform(op, w, rest), Perform(op, v, rest))
  {
    hide AgreeOffIn, Operate, UnwindLoop, UnwindReturn, UnwindStopped;
    if !Unwinds(op) { OperateAgrees(names, op, w, v); }
  }

  lemma DispatchAgrees(names: set<Name>, w: World, v: World, rest: seq<Frame>, t: Token)
    requires AgreeOff(names, w, v) && (t.Nam? ==> t.name !in names)
    ensures StatesAgree(names, Dispatch(w, rest, t), Dispatch(v, rest, t))
  {
    hide AgreeOffIn, Perform, Find;
    if t.Func? { PerformAgrees(names, t.op, w, v, rest); }
    if t.Nam? { FindAgrees(names, w, v, t.name); }
  }

  // ---- runs ----

  /** The next step looks one of these names up. */
  predicate LooksUp(names: set<Name>, s: State) {
    s.fs != [] && Last(s.fs).TokF? && Last(s.fs).t.Nam? && Last(s.fs).t.name in names
  }

  lemma StepAgrees(names: set<Name>, tco: bool, s: State, t: State)
    requires Inv(s) && Inv(t) && StatesAgree(names, s, t) && !LooksUp(names, s)
    ensures StatesAgree(names, Step(tco, s), Step(tco, t))
  {
    hide AgreeOff, Dispatch, Exhaust, Executable;
    if s.fs != [] {
      var f, rest := Last(s.fs), Init(s.fs);
      assert f in s.fs;
      if f.TokF? {
        DispatchAgrees(names, s.w, t.w, rest, f.t);
      } else if f.pos >= |f.proc| {
        ExhaustAgrees(names, f, s.w, t.w);
      }
    }
  }

  /** Runs stay alike up to the first time that one of the names is looked up. */
  lemma {:induction false} RunsAgree(names: set<Name>, tco: bool, s: State, t: State, k: nat)
    requires Inv(s) && Inv(t) && StatesAgree(names, s, t)
    requires forall i: nat :: i < k ==> !LooksUp(names, Run(tco, s, i))
    ensures StatesAgree(names, Run(tco, s, k), Run(tco, t, k))
    decreases k
  {
    hide Step, StatesAgree, LooksUp;
    if k > 0 {
      assert !LooksUp(names, Run(tco, s, 0));
      StepAgrees(names, tco, s, t);
      StepKeepsInv(tco, s);
      StepKeepsInv(tco, t);
      forall i: nat | i < k - 1 ensures !LooksUp(names, Run(tco, Step(tco, s), i)) {
        assert !LooksUp(names, Run(tco, s, i + 1));
      }
      RunsAgree(names, tco, Step(tco, s), Step(tco, t), k - 1);
    }
  }

  /** A program in which a name does not occur never looks it up. */
  lemma FreeLooksNothingUp(b: Banned, tco: bool, s: State, k: nat)
    requires Inv(s) && FreeState(b, s)
    ensures !LooksUp(b.names, Run(tco, s, k))
  {
    RunKeepsFree(b, tco, s, k);
    var r := Run(tco, s, k);
    if r.fs != [] { assert Last(r.fs) in r.fs; }
  }

  // ---- bound bodies ----

  /** No array in the token contains what is banned. `bind` does not look into arrays. */
  predicate ArraysFree(b: Banned, t: Token) {
    match t
    case Arr(_) => FreeOf(b, t)
    case Proc(items) => forall x :: x in items ==> ArraysFree(b, x)
    case LitProc(items) => forall x :: x in items ==> ArraysFree(b, x)
    case _ => true
  }

  /** The names in question all resolve to functions. */
  predicate Resolved(w: World, names: set<Name>) {
    forall n :: n in names ==> Find(w, n).Some? && Find(w, n).value.Func?
  }

  lemma {:induction false} BoundIsFree(b: Banned, w: World, body: seq<Token>)
    requires b.ops == {} && Resolved(w, b.names) && forall t :: t in body ==> ArraysFree(b, t)
    ensures AllFree(b, BindBody(w, body))
    decreases body
  {
    var r := BindBody(w, body);
    forall k | 0 <= k < |body| ensures FreeOf(b, r[k]) {
      var t := body[k];
      assert r[k] == BindToken(w, t) && ArraysFree(b, t);
      if t.Proc? || t.LitProc? { BoundIsFree(b, w, t.items); }
    }
  }

  /** What was bound to a function when `bind` resolved it may be bound anew later, or
      unbound: the bound body runs as if nothing had happened. */
  lemma RebindingIsHarmless(tco: bool, b: Banned, w: World, body: seq<Token>, rest: seq<Frame>,
                            u: World, v: World, k: nat)
    requires b.ops == {} && Resolved(w, b.names) && forall t :: t in body ==> ArraysFree(b, t)
    requires FreeWorld(b, u) && (forall f :: f in rest ==> FreeFrame(b, f)) && AgreeOff(b.names, u, v)
    requires Inv(State(u, rest + [TokF(Proc(BindBody(w, body)))]))
    ensures
      var s, t := State(u, rest + [TokF(Proc(BindBody(w, body)))]), State(v, rest + [TokF(Proc(BindBody(w, body)))]);
      Inv(t) && StatesAgree(b.names, Run(tco, s, k), Run(tco, t, k))
  {
    var s, t := State(u, rest + [TokF(Proc(BindBody(w, body)))]), State(v, rest + [TokF(Proc(BindBody(w, body)))]);
    BoundIsFree(b, w, body);
    assert FreeState(b, s);
    hide FreeState, LooksUp;
    forall i: nat | i < k ensures !LooksUp(b.names, Run(tco, s, i)) {
      FreeLooksNothingUp(b, tco, s, i);
    }
    RunsAgree(b.names, tco, s, t, k);
  }

  // ---- a program ----

  /** `/f {1 2 add} bind def /add {pop} def f` leaves 3. */
  lemma BoundNameSurvives(tco: bool, w: World, x: World)
    requires Find(w, "add") == Some(Func(Add)) && Find(x, "def") == Some(Func(Def))
    ensures
      var f := BindBody(w, [Int(1), Int(2), Nam("add")]);
      var p := [Lit("f"), LitProc(f), Nam("def"), Lit("add"), LitProc([Nam("pop")]), Nam("def"), Nam("f")];
      Effect(tco, p, x, x.(ost := x.ost + [Int(3)],
                           current := x.current["f" := Proc(f)]["add" := Proc([Nam("pop")])]))
  {
    hide Effect, Acts, Find, BindBody;
    var f := BindBody(w, [Int(1), Int(2), Nam("add")]);
    assert f == [Int(1), Int(2), Func(Add)];
    var y := x.(current := x.current["f" := Proc(f)]);
    var z := y.(current := y.current["add" := Proc([Nam("pop")])]);
    DefActs(tco, "f", Proc(f), x);
    DefActs(tco, "add", Proc([Nam("pop")]), y);
    DefinitionRuns(tco, "f", f, x);
    DefinitionRuns(tco, "add", [Nam("pop")], y);
    var d, e := [Lit("f"), LitProc(f), Nam("def")], [Lit("add"), LitProc([Nam("pop")]), Nam("def")];
    EffectsInSequence(tco, d, e, x, y, z);
    OneAndTwo(tco, z);
    ProcedureActs(tco, f, z, z.(ost := z.ost + [Int(3)]));
    FoundNameActs(tco, "f", Proc(f), z, z.(ost := z.ost + [Int(3)]));
    EffectOfNext(tco, d + e, Nam("f"), x, z, z.(ost := z.ost + [Int(3)]));
    assert d + e + [Nam("f")]
        == [Lit("f"), LitProc(f), Nam("def"), Lit("add"), LitProc([Nam("pop")]), Nam("def"), Nam("f")];
  }

  lemma OneAndTwo(tco: bool, x: World)
    ensures Effect(tco, [Int(1), Int(2), Func(Add)], x, x.(ost := x.ost + [Int(3)]))
  {
    hide Effect, Acts;
    var y, z := x.(ost := x.ost + [Int(1)]), x.(ost := x.ost + [Int(1)] + [Int(2)]);
    assert x.ost + [Int(1)] + [Int(2)] == x.ost + [Int(1), Int(2)];
    DataActs(tco, Int(1), x);
    DataActs(tco, Int(2), y);
    ArithmeticActs(tco, Add, 1, 2, x);
    EffectOfToken(tco, Int(1), x, y);
    EffectOfNext(tco, [Int(1)], Int(2), x, y, z);
    EffectOfNext(tco, [Int(1)] + [Int(2)], Func(Add), x, z, x.(ost := x.ost + [Int(3)]));
    assert [Int(1)] + [Int(2)] + [Func(Add)] == [Int(1), Int(2), Func(Add)];
  }
}
