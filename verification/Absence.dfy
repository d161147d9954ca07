/** Programs in which some functions and names do not occur. */
module Absence {
  import opened Tokens
  import opened Machine
  import opened Runs

  datatype Words = Words(ops: set<Op>, names: set<Name>)

  /** What a program does without. Every error schedules `stop`, and every `stopped` leaves its
      sentinel, so that these two cannot be banned. */
  type Banned = b: Words | Stop !in b.ops && ISTOPPED !in b.names witness Words({}, {})

  predicate FreeOf(b: Banned, t: Token) {
    match t
    case Func(op) => op !in b.ops
    case Nam(n) => n !in b.names
    case Arr(items) => forall x :: x in items ==> FreeOf(b, x)
    case Proc(items) => forall x :: x in items ==> FreeOf(b, x)
    case LitProc(items) => forall x :: x in items ==> FreeOf(b, x)
    case _ => true
  }

  predicate AllFree(b: Banned, ts: seq<Token>) {
    forall x :: x in ts ==> FreeOf(b, x)
  }

  predicate FreeDictionary(b: Banned, d: Dictionary) {
    forall n :: n in d && n !in b.names ==> FreeOf(b, d[n])
  }

  predicate FreeWorld(b: Banned, w: World) {
    && AllFree(b, w.ost)
    && FreeDictionary(b, w.current)
    && (forall d :: d in w.below ==> FreeDictionary(b, d))
  }

  predicate FreeFrame(b: Banned, f: Frame) {
    match f
    case TokF(t) => FreeOf(b, t)
    case Walk(k, proc, _) =>
      && AllFree(b, proc)
      && (k.KForall? || k.KForallIndexed? ==> AllFree(b, k.items))
      && (k.KMap? || k.KMapThread? ==> AllFree(b, k.target))
      && (k.KMapThread? ==> AllFree(b, k.rows))
  }

  /** No token of the state, however deeply nested, is banned; values of banned names may be
      anything. */
  predicate FreeState(b: Banned, s: State) {
    FreeWorld(b, s.w) && forall f :: f in s.fs ==> FreeFrame(b, f)
  }

  lemma LookupIsFree(b: Banned, ds: seq<Dictionary>, n: Name)
    requires n !in b.names && forall d :: d in ds ==> FreeDictionary(b, d)
    ensures Lookup(ds, n).Some? ==> FreeOf(b, Lookup(ds, n).value)
  {
    if ds != [] {
      assert ds[|ds| - 1] in ds;
      LookupIsFree(b, ds[..|ds| - 1], n);
    }
  }

  lemma PickIsFree(b: Banned, w: World)
    requires AllFree(b, w.ost)
    ensures forall k: nat :: k < |w.ost| ==> FreeOf(b, Pick(w.ost, k))
  {
  }

  lemma ExhaustIsFree(b: Banned, f: Frame, w: World)
    requires f.Walk? && WellFormed(f) && FreeFrame(b, f) && FreeWorld(b, w)
    ensures FreeWorld(b, Exhaust(f, w).w)
    ensures forall g :: g in Exhaust(f, w).push ==> FreeFrame(b, g)
  {
    if IsMap(f) {
      ExhaustMapIsFree(b, f, w);
    }
  }

  lemma ExhaustMapIsFree(b: Banned, f: Frame, w: World)
    requires IsMap(f) && WellFormed(f) && FreeFrame(b, f) && FreeWorld(b, w)
    ensures FreeWorld(b, ExhaustMap(f, w).w)
    ensures forall g :: g in ExhaustMap(f, w).push ==> FreeFrame(b, g)
  {
    var k := f.kind;
    if !(k.at > 0 && |w.ost| != k.saved + 1) {
      PickIsFree(b, w);
      var target := if k.at > 0 then k.target[k.at - 1 := Pick(w.ost, 0)] else k.target;
      assert AllFree(b, target);
      hide FreeOf;
      if k.at < |target| && k.KMapThread? { ColumnIsFree(b, k.rows, k.at); }
    }
  }

  lemma ColumnIsFree(b: Banned, rows: seq<Token>, j: nat)
    requires AllFree(b, rows) && forall r :: r in rows ==> r.Arr? && j < |r.items|
    ensures AllFree(b, Column(rows, j))
  {
    forall x | x in Column(rows, j) ensures FreeOf(b, x) {
      var i :| 0 <= i < |rows| && x == rows[i].items[j];
      assert rows[i] in rows;
    }
  }

  ghost predicate FreeOut(b: Banned, o: Out) {
    FreeWorld(b, o.w) && forall g :: g in o.push ==> FreeFrame(b, g)
  }

  lemma OperateForallIsFree(b: Banned, op: Op, w: World)
    requires (op.Forall? || op.ForallIndexed?) && |w.ost| >= 2 && FreeWorld(b, w)
    ensures FreeOut(b, OperateForall(op, w))
  {
    PickIsFree(b, w);
  }

  lemma OperateMapIsFree(b: Banned, op: Op, w: World)
    requires (op.Map? || op.MapIndexed? || op.MapThread?) && |w.ost| >= 2
    requires Pick(w.ost, 0).Proc? && FreeWorld(b, w)
    ensures FreeOut(b, OperateMap(op, w))
  {
    PickIsFree(b, w);
    var src := Pick(w.ost, 1);
    if src.Arr? && src.items != [] {
      assert FreeOf(b, src.items[0]);
    }
  }

  lemma OperateLoopIsFree(b: Banned, op: Op, w: World)
    requires IsLoopOp(op) && |w.ost| >= Arity(op) && FreeWorld(b, w)
    ensures FreeOut(b, OperateLoop(op, w))
  {
    if op.Forall? || op.ForallIndexed? {
      OperateForallIsFree(b, op, w);
    } else if Pick(w.ost, 0).Proc? {
      PickIsFree(b, w);
      if op.Map? || op.MapIndexed? || op.MapThread? { OperateMapIsFree(b, op, w); }
    }
  }

  lemma ArithIsFree(b: Banned, op: Op, w: World)
    requires (op.Add? || op.Sub?) && |w.ost| >= 2 && FreeWorld(b, w)
    ensures FreeOut(b, Arith(op, w))
  {}

  lemma OperateIsFree(b: Banned, op: Op, w: World)
    requires !Unwinds(op) && FreeWorld(b, w)
    ensures FreeOut(b, Operate(op, w))
  {
    if |w.ost| >= Arity(op) {
      if IsLoopOp(op) {
        OperateLoopIsFree(b, op, w);
      } else {
        PickIsFree(b, w);
        if op.Add? || op.Sub? { ArithIsFree(b, op, w); }
        hide Arith, OperateLoop, Arity;
      }
    }
  }

  predicate FreeFrames(b: Banned, fs: seq<Frame>) {
    forall f :: f in fs ==> FreeFrame(b, f)
  }

  lemma PerformKeepsFree(b: Banned, op: Op, w: World, rest: seq<Frame>)
    requires FreeWorld(b, w) && FreeFrames(b, rest)
    ensures FreeState(b, Perform(op, w, rest))
  {
    UnwindLoopIsPrefix(rest);
    UnwindReturnIsPrefix(rest, false);
    UnwindStoppedIsPrefix(rest);
    if !Unwinds(op) { OperateIsFree(b, op, w); }
  }

  lemma DispatchKeepsFree(b: Banned, w: World, rest: seq<Frame>, t: Token)
    requires FreeWorld(b, w) && FreeFrames(b, rest) && FreeOf(b, t)
    ensures FreeState(b, Dispatch(w, rest, t))
  {
    match t
    case Func(op) => PerformKeepsFree(b, op, w, rest);
    case Nam(n) => LookupIsFree(b, w.below, n);
    case _ =>
  }

  lemma StepKeepsFree(b: Banned, tco: bool, s: State)
    requires Inv(s) && FreeState(b, s)
    ensures FreeState(b, Step(tco, s))
  {
    if s.fs != [] {
      var f, rest := Last(s.fs), Init(s.fs);
      assert f in s.fs;
      assert FreeFrames(b, rest);
      if f.TokF? {
        DispatchKeepsFree(b, s.w, rest, f.t);
      } else if f.pos < |f.proc| {
        assert f.proc[f.pos] in f.proc;
      } else {
        ExhaustIsFree(b, f, s.w);
      }
    }
  }

  /** It never gets there in any run. */
  lemma {:induction false} RunKeepsFree(b: Banned, tco: bool, s: State, k: nat)
    requires Inv(s) && FreeState(b, s)
    ensures FreeState(b, Run(tco, s, k))
    decreases k
  {
    if k > 0 {
      StepKeepsInv(tco, s);
      StepKeepsFree(b, tco, s);
      RunKeepsFree(b, tco, Step(tco, s), k - 1);
    }
  }
}
