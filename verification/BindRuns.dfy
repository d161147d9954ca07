/** A program and its bound form run alike. */
module BindingRuns {
  import opened Tokens
  import opened Machine
  import opened Runs
  import opened Binding

  // ---- functions treat a token and its bound form alike ----

  lemma FindBound(m: Replaced, w: World, v: World, n: Name)
    requires BoundWorld(m, w, v)
    ensures Find(w, n).Some? <==> Find(v, n).Some?
    ensures Find(w, n).Some? ==> Bound(m, Find(w, n).value, Find(v, n).value)
  {
    LookupBound(m, w.below, v.below, n);
  }

  lemma {:induction false} LookupBound(m: Replaced, ds: seq<Dictionary>, es: seq<Dictionary>, n: Name)
    requires BoundDictionaries(m, ds, es)
    ensures Lookup(ds, n).Some? <==> Lookup(es, n).Some?
    ensures Lookup(ds, n).Some? ==> Bound(m, Lookup(ds, n).value, Lookup(es, n).value)
  {
    if ds != [] {
      assert BoundDictionary(m, ds[|ds| - 1], es[|es| - 1]);
      LookupBound(m, ds[..|ds| - 1], es[..|es| - 1], n);
    }
  }

  /** A token and its bound form have the same type, but for a replaced name. */
  predicate Alike(m: Replaced, t: Token, u: Token) {
    && Bound(m, t, u)
    && (t.Int? || u.Int? || t.Bool? || u.Bool? || t.Mark? || u.Mark? || t.Lit? || u.Lit? || t.Func? ==> u == t)
    && (t.Arr? || u.Arr? ==> t.Arr? && u.Arr? && BoundAll(m, t.items, u.items))
    && (t.Proc? || u.Proc? ==> t.Proc? && u.Proc? && BoundAll(m, t.items, u.items))
    && (Executable(t) <==> Executable(u))
    && (t.LitProc? || u.LitProc? ==> t.LitProc? && u.LitProc? && BoundAll(m, t.items, u.items))
  }

  lemma BoundAlike(m: Replaced, t: Token, u: Token)
    requires Bound(m, t, u)
    ensures Alike(m, t, u)
  {
  }

  lemma BoundItems(m: Replaced, a: seq<Token>, b: seq<Token>)
    requires BoundAll(m, a, b)
    ensures Bound(m, Proc(a), Proc(b)) && Bound(m, Arr(a), Arr(b))
  {
  }

  lemma PickBound(m: Replaced, w: World, v: World, k: nat)
    requires BoundWorld(m, w, v) && k < |w.ost|
    ensures k < |v.ost| && Alike(m, Pick(w.ost, k), Pick(v.ost, k))
  {}

  lemma SameHeights(m: Replaced, w: World, v: World)
    requires BoundWorld(m, w, v)
    ensures |w.ost| == |v.ost|
  {
    hide Bound, BoundDictionaries, BoundDictionary;
  }

  lemma FailBound(m: Replaced, w: World, v: World, cmd: Name, e: Name)
    requires BoundWorld(m, w, v)
    ensures BoundOut(m, Fail(w, cmd, e), Fail(v, cmd, e))
  {
    hide Bound, BoundDictionaries, BoundDictionary;
    BoundReflAny(m);
  }

  lemma DropBound(m: Replaced, w: World, v: World, n: nat)
    requires BoundWorld(m, w, v) && n <= |w.ost|
    ensures n <= |v.ost| && BoundWorld(m, Drop(w, n), Drop(v, n))
  {
    hide Bound, BoundDictionaries, BoundDictionary;
  }

  lemma PushAllBound(m: Replaced, w: World, v: World, a: seq<Token>, b: seq<Token>)
    requires BoundWorld(m, w, v) && BoundAll(m, a, b)
    ensures BoundWorld(m, PushAll(w, a), PushAll(v, b))
  {
    hide Bound, BoundDictionaries, BoundDictionary;
  }

  lemma PushTokenBound(m: Replaced, w: World, v: World, t: Token, u: Token)
    requires BoundWorld(m, w, v) && Bound(m, t, u)
    ensures BoundWorld(m, Push(w, t), Push(v, u))
  {
    hide Bound, BoundDictionaries, BoundDictionary;
  }

  lemma StackOpBound(m: Replaced, op: Op, w: World, v: World)
    requires BoundWorld(m, w, v) && (op.Pop? || op.Dup? || op.Exch?) && |w.ost| >= Arity(op)
    ensures BoundOut(m, Operate(op, w), Operate(op, v))
  {
    hide Bound, BoundWorld;
    PickBound(m, w, v, 0);
    var t, u := Pick(w.ost, 0), Pick(v.ost, 0);
    match op
    case Pop => DropBound(m, w, v, 1);
    case Dup => PushTokenBound(m, w, v, t, u);
    case Exch =>
      PickBound(m, w, v, 1);
      DropBound(m, w, v, 2);
      PushAllBound(m, Drop(w, 2), Drop(v, 2), [t, Pick(w.ost, 1)], [u, Pick(v.ost, 1)]);
  }

  lemma ArithBound(m: Replaced, op: Op, w: World, v: World)
    requires BoundWorld(m, w, v) && (op.Add? || op.Sub?) && |w.ost| >= 2
    ensures |v.ost| >= 2 && BoundOut(m, Arith(op, w), Arith(op, v))
  {
    hide Bound, BoundWorld, BoundAll;
    PickBound(m, w, v, 0);
    PickBound(m, w, v, 1);
    FailBound(m, w, v, OpName(op), "ArgumentType");
    FailBound(m, w, v, OpName(op), "RangeCheck");
    DropBound(m, w, v, 2);
    var a, b := Pick(w.ost, 1), Pick(w.ost, 0);
    if a.Int? && b.Int? {
      var r := Int(if op.Add? then a.i + b.i else a.i - b.i);
      BoundRefl(m, r);
      PushTokenBound(m, Drop(w, 2), Drop(v, 2), r, r);
    }
  }

  lemma ExecBound(m: Replaced, op: Op, w: World, v: World)
    requires BoundWorld(m, w, v) && |w.ost| >= Arity(op)
    requires op.If? || op.Ifelse? || op.Exec? || op.Stopped?
    ensures BoundOut(m, Operate(op, w), Operate(op, v))
  {
    hide Bound, BoundWorld, BoundAll, Fail, Raise, OpName, OperateLoop, Arith;
    BoundReflAny(m);
    PickBound(m, w, v, 0);
    DropBound(m, w, v, Arity(op));
    if Arity(op) >= 2 { PickBound(m, w, v, 1); }
    if Arity(op) >= 3 { PickBound(m, w, v, 2); }
    FailBound(m, w, v, OpName(op), "TypeMismatch");
  }

  lemma DefBound(m: Replaced, w: World, v: World)
    requires BoundWorld(m, w, v) && |w.ost| >= 2
    ensures BoundOut(m, Operate(Def, w), Operate(Def, v))
  {
    hide Bound, BoundDictionaries, BoundAll;
    PickBound(m, w, v, 0);
    PickBound(m, w, v, 1);
    DropBound(m, w, v, 2);
    FailBound(m, w, v, OpName(Def), "TypeMismatch");
  }

  lemma BasicBound(m: Replaced, op: Op, w: World, v: World)
    requires BoundWorld(m, w, v) && !Unwinds(op) && !IsLoopOp(op) && |w.ost| >= Arity(op)
    ensures BoundOut(m, Operate(op, w), Operate(op, v))
  {
    hide Bound, BoundFrames;
    assert |v.ost| == |w.ost| by { PickBound(m, w, v, 0); }
    if op.Add? || op.Sub? {
      ArithBound(m, op, w, v);
    } else if op.Pop? || op.Dup? || op.Exch? {
      StackOpBound(m, op, w, v);
    } else if op.Def? {
      DefBound(m, w, v);
    } else {
      ExecBound(m, op, w, v);
    }
  }

  lemma RowErrorBound(m: Replaced, a: seq<Token>, b: seq<Token>, n: nat)
    requires BoundAll(m, a, b)
    ensures RowError(a, n) == RowError(b, n)
  {}

  lemma RowErrorNames(a: seq<Token>, n: nat)
    ensures RowError(a, n).Some? ==> RowError(a, n).value in ["ArgumentType", "RangeCheck"]
  {
  }

  lemma FramesBound(m: Replaced, f: Frame, g: Frame)
    requires BoundFrame(m, f, g)
    ensures BoundFrames(m, [f], [g])
  {
  }

  lemma MapThreadBound(m: Replaced, w: World, v: World)
    requires BoundWorld(m, w, v) && |w.ost| >= 2
    requires |v.ost| >= 2 && Pick(w.ost, 0).Proc? && Pick(v.ost, 0).Proc?
    ensures BoundOut(m, OperateMap(MapThread, w), OperateMap(MapThread, v))
  {
    hide Bound, BoundWorld, Fail, Raise, Rectangular, OpName, RowError;
    SameHeights(m, w, v);
    PickBound(m, w, v, 0);
    PickBound(m, w, v, 1);
    DropBound(m, w, v, 1);
    FailBound(m, w, v, OpName(MapThread), "TypeMismatch");
    FailBound(m, w, v, OpName(MapThread), "ArgumentType");
    FailBound(m, w, v, OpName(MapThread), "RangeCheck");
    var a, b := Pick(w.ost, 1), Pick(v.ost, 1);
    if a.Arr? && a.items != [] {
      BoundAlike(m, a.items[0], b.items[0]);
      if a.items[0].Arr? {
        RowErrorBound(m, a.items, b.items, |a.items[0].items|);
        RowErrorNames(a.items, |a.items[0].items|);
      }
    }
  }

  lemma MapBound(m: Replaced, op: Op, w: World, v: World)
    requires BoundWorld(m, w, v) && (op.Map? || op.MapIndexed?) && |w.ost| >= 2
    requires |v.ost| >= 2 && Pick(w.ost, 0).Proc? && Pick(v.ost, 0).Proc?
    ensures BoundOut(m, OperateMap(op, w), OperateMap(op, v))
  {
    hide Bound, BoundWorld, Fail, Raise, OpName;
    SameHeights(m, w, v);
    PickBound(m, w, v, 0);
    PickBound(m, w, v, 1);
    DropBound(m, w, v, 1);
    FailBound(m, w, v, OpName(op), "TypeMismatch");
  }

  lemma ForallBound(m: Replaced, op: Op, w: World, v: World)
    requires BoundWorld(m, w, v) && (op.Forall? || op.ForallIndexed?) && |w.ost| >= 2
    ensures |v.ost| >= 2 && BoundOut(m, OperateForall(op, w), OperateForall(op, v))
  {
    hide Bound, BoundWorld;
    PickBound(m, w, v, 0);
    PickBound(m, w, v, 1);
    DropBound(m, w, v, 2);
    FailBound(m, w, v, OpName(op), "ArgumentType");
  }

  lemma RepeatBound(m: Replaced, op: Op, w: World, v: World)
    requires BoundWorld(m, w, v) && (op.Loop? || op.Repeat?) && |w.ost| >= Arity(op)
    ensures |v.ost| >= Arity(op) && BoundOut(m, OperateLoop(op, w), OperateLoop(op, v))
  {
    assert |w.ost| == |v.ost|;
    hide Bound, BoundWorld, BoundAll;
    PickBound(m, w, v, 0);
    DropBound(m, w, v, Arity(op));
    FailBound(m, w, v, OpName(op), "TypeMismatch");
    if op.Repeat? { PickBound(m, w, v, 1); }
  }

  lemma ForBound(m: Replaced, w: World, v: World)
    requires BoundWorld(m, w, v) && |w.ost| >= 4
    ensures |v.ost| >= 4 && BoundOut(m, OperateLoop(For, w), OperateLoop(For, v))
  {
    assert |w.ost| == |v.ost|;
    hide Bound, BoundWorld, BoundAll;
    PickBound(m, w, v, 0);
    PickBound(m, w, v, 1);
    PickBound(m, w, v, 2);
    PickBound(m, w, v, 3);
    DropBound(m, w, v, 4);
    FailBound(m, w, v, OpName(For), "TypeMismatch");
  }

  lemma LoopBound(m: Replaced, op: Op, w: World, v: World)
    requires BoundWorld(m, w, v) && IsLoopOp(op) && |w.ost| >= Arity(op)
    ensures |v.ost| >= Arity(op) && BoundOut(m, OperateLoop(op, w), OperateLoop(op, v))
  {
    hide Bound, BoundWorld, BoundAll, BoundFrames;
    PickBound(m, w, v, 0);
    DropBound(m, w, v, Arity(op));
    if op.Forall? || op.ForallIndexed? {
      ForallBound(m, op, w, v);
    } else if op.Loop? || op.Repeat? {
      RepeatBound(m, op, w, v);
    } else if op.For? {
      ForBound(m, w, v);
    } else if !Pick(w.ost, 0).Proc? {
      FailBound(m, w, v, OpName(op), "TypeMismatch");
    } else if op.MapThread? {
      MapThreadBound(m, w, v);
    } else {
      MapBound(m, op, w, v);
    }
  }

  lemma OperateBound(m: Replaced, op: Op, w: World, v: World)
    requires BoundWorld(m, w, v) && !Unwinds(op)
    ensures BoundOut(m, Operate(op, w), Operate(op, v))
  {
    if |w.ost| < Arity(op) {
      FailBound(m, w, v, OpName(op), "StackUnderflow");
    } else if IsLoopOp(op) {
      LoopBound(m, op, w, v);
    } else {
      BasicBound(m, op, w, v);
    }
  }

  lemma ExhaustMapBound(m: Replaced, f: Frame, g: Frame, w: World, v: World)
    requires BoundFrame(m, f, g) && BoundWorld(m, w, v)
    requires IsMap(f) && WellFormed(f) && IsMap(g) && WellFormed(g)
    ensures BoundOut(m, ExhaustMap(f, w), ExhaustMap(g, v))
  {
    hide Bound, BoundWorld, NextMap, Rectangular, Raise;
    var k, l := f.kind, g.kind;
    SameHeights(m, w, v);
    if k.at > 0 && |w.ost| != k.saved + 1 {
      FailBound(m, w, v, INTERPRETER, "StackUnderflow");
      FramesBound(m, f, g);
    } else if k.at > 0 {
      PickBound(m, w, v, 0);
      DropBound(m, w, v, 1);
      var a, b := k.target[k.at - 1 := Pick(w.ost, 0)], l.target[l.at - 1 := Pick(v.ost, 0)];
      NextMapBound(m, f, g, Drop(w, 1), Drop(v, 1), a, b);
    } else {
      NextMapBound(m, f, g, w, v, k.target, l.target);
    }
  }

  lemma NextMapBound(m: Replaced, f: Frame, g: Frame, w: World, v: World, a: seq<Token>, b: seq<Token>)
    requires BoundFrame(m, f, g) && BoundWorld(m, w, v) && BoundAll(m, a, b)
    requires IsMap(f) && WellFormed(f) && IsMap(g) && WellFormed(g)
    requires |a| == |f.kind.target| && (f.kind.at < |a| || w.ost != [])
    ensures |b| == |g.kind.target| && (g.kind.at < |b| || v.ost != [])
    ensures BoundOut(m, NextMap(f, w, a), NextMap(g, v, b))
  {
    hide Bound, BoundWorld, MapArguments, Rectangular;
    var k, l := f.kind, g.kind;
    SameHeights(m, w, v);
    if k.at < |a| {
      ArgumentsBound(m, k.(target := a), l.(target := b));
      PushAllBound(m, w, v, MapArguments(k.(target := a)), MapArguments(l.(target := b)));
    } else {
      BoundItems(m, a, b);
      DropBound(m, w, v, 1);
      PushTokenBound(m, Drop(w, 1), Drop(v, 1), Arr(a), Arr(b));
    }
  }

  lemma ArgumentsBound(m: Replaced, k: Kind, l: Kind)
    requires (k.KMap? || k.KMapThread?) && WellFormedKind(k) && WellFormedKind(l)
    requires BoundKind(m, k, l) && k.at < |k.target|
    ensures BoundAll(m, MapArguments(k), MapArguments(l))
  {
    hide Bound, BoundDictionaries, BoundDictionary;
    if k.KMapThread? { ColumnBound(m, k.rows, l.rows, k.at); } else { BoundReflAny(m); }
  }

  lemma ColumnBound(m: Replaced, a: seq<Token>, b: seq<Token>, j: nat)
    requires BoundAll(m, a, b) && forall r :: r in a + b ==> r.Arr? && j < |r.items|
    ensures BoundAll(m, Column(a, j), Column(b, j))
  {}

  lemma ExhaustBound(m: Replaced, f: Frame, g: Frame, w: World, v: World)
    requires BoundFrame(m, f, g) && BoundWorld(m, w, v)
    requires f.Walk? && WellFormed(f) && g.Walk? && WellFormed(g)
    ensures BoundOut(m, Exhaust(f, w), Exhaust(g, v))
  {
    hide Bound, BoundDictionaries, BoundDictionary;
    BoundReflAny(m);
    if IsMap(f) { ExhaustMapBound(m, f, g, w, v); }
  }

  // ---- unwinding ----

  lemma InitBound(m: Replaced, fs: seq<Frame>, gs: seq<Frame>)
    requires fs != [] && BoundFrames(m, fs, gs)
    ensures BoundFrames(m, Init(fs), Init(gs)) && BoundFrame(m, Last(fs), Last(gs))
  {
    hide Bound, BoundDictionaries, BoundDictionary;
  }

  lemma {:induction false} UnwindLoopBound(m: Replaced, fs: seq<Frame>, gs: seq<Frame>)
    requires BoundFrames(m, fs, gs)
    ensures UnwindLoop(fs).Some? <==> UnwindLoop(gs).Some?
    ensures UnwindLoop(fs).Some? ==> BoundFrames(m, UnwindLoop(fs).value, UnwindLoop(gs).value)
  {
    if fs != [] {
      InitBound(m, fs, gs);
      UnwindLoopBound(m, Init(fs), Init(gs));
    }
  }

  lemma {:induction false} UnwindStoppedBound(m: Replaced, fs: seq<Frame>, gs: seq<Frame>)
    requires BoundFrames(m, fs, gs) && ISTOPPED !in m
    ensures UnwindStopped(fs).Some? <==> UnwindStopped(gs).Some?
    ensures UnwindStopped(fs).Some? ==> BoundFrames(m, UnwindStopped(fs).value, UnwindStopped(gs).value)
  {
    if fs != [] {
      InitBound(m, fs, gs);
      UnwindStoppedBound(m, Init(fs), Init(gs));
    }
  }

  lemma {:induction false} UnwindReturnBound(m: Replaced, fs: seq<Frame>, gs: seq<Frame>, passed: bool)
    requires BoundFrames(m, fs, gs)
    ensures UnwindReturn(fs, passed).Some? <==> UnwindReturn(gs, passed).Some?
    ensures UnwindReturn(fs, passed).Some? ==>
              BoundFrames(m, UnwindReturn(fs, passed).value, UnwindReturn(gs, passed).value)
  {
    if fs != [] {
      InitBound(m, fs, gs);
      UnwindReturnBound(m, Init(fs), Init(gs), true);
    }
  }

  lemma PushBound(m: Replaced, w: World, v: World, fs: seq<Frame>, gs: seq<Frame>, o: Out, q: Out)
    requires BoundFrames(m, fs, gs) && BoundOut(m, o, q)
    ensures BoundState(m, State(o.w, fs + o.push), State(q.w, gs + q.push))
  {
    hide Bound, BoundDictionaries, BoundDictionary;
  }

  lemma PerformBound(m: Replaced, op: Op, w: World, v: World, fs: seq<Frame>, gs: seq<Frame>)
    requires BoundWorld(m, w, v) && BoundFrames(m, fs, gs) && ISTOPPED !in m
    ensures BoundState(m, Perform(op, w, fs), Perform(op, v, gs))
  {
    hide Bound, BoundDictionaries, BoundDictionary;
    BoundReflAny(m);
    match op
    case Exit =>
      UnwindLoopBound(m, fs, gs);
      FailBound(m, w, v, OpName(op), "EStackUnderflow");
    case Return =>
      UnwindReturnBound(m, fs, gs, false);
      FailBound(m, w, v, OpName(op), "InvalidReturn");
    case Stop => UnwindStoppedBound(m, fs, gs);
    case _ =>
      OperateBound(m, op, w, v);
      PushBound(m, w, v, fs, gs, Operate(op, w), Operate(op, v));
  }

  // ---- steps and runs ----

  /** No replaced name has been rebound. */
  predicate Keeps(m: Replaced, w: World) {
    forall n :: n in m ==> Find(w, n) == Some(Func(m[n]))
  }

  /** The original is about to look up a name that its bound form has already resolved. */
  predicate Behind(s: State, t: State) {
    s.fs != [] && t.fs != [] && Last(s.fs) != Last(t.fs) && Last(s.fs).TokF? && Last(s.fs).t.Nam?
  }

  lemma DispatchBound(m: Replaced, w: World, v: World, fs: seq<Frame>, gs: seq<Frame>, t: Token, u: Token)
    requires BoundWorld(m, w, v) && BoundFrames(m, fs, gs) && ISTOPPED !in m
    requires Bound(m, t, u) && (t.Nam? ==> u == t)
    ensures BoundState(m, Dispatch(w, fs, t), Dispatch(v, gs, u))
  {
    hide Bound, BoundWorld, BoundAll;
    BoundReflAny(m);
    BoundAlike(m, t, u);
    match t
    case Nam(n) =>
      FindBound(m, w, v, n);
      if Find(w, n).Some? {
        BoundAlike(m, Find(w, n).value, Find(v, n).value);
        PushTokenBound(m, w, v, Find(w, n).value, Find(v, n).value);
      }
      FailBound(m, w, v, INTERPRETER, "UndefinedName");
    case Func(op) => PerformBound(m, op, w, v, fs, gs);
    case LitProc(a) =>
      BoundItems(m, a, u.items);
      PushTokenBound(m, w, v, Proc(a), Proc(u.items));
    case _ => PushTokenBound(m, w, v, t, u);
  }

  lemma StepBound(m: Replaced, tco: bool, s: State, t: State)
    requires Inv(s) && Inv(t) && BoundState(m, s, t) && Keeps(m, s.w) && ISTOPPED !in m
    ensures if Behind(s, t) then BoundState(m, Step(tco, s), t) && !Behind(Step(tco, s), t)
            else BoundState(m, Step(tco, s), Step(tco, t))
  {
    if s.fs != [] {
      InitBound(m, s.fs, t.fs);
      var f, g := Last(s.fs), Last(t.fs);
      assert f in s.fs && g in t.fs;
      if f.TokF? {
        if Behind(s, t) {
          BoundRefl(m, g.t);
        } else {
          DispatchBound(m, s.w, t.w, Init(s.fs), Init(t.fs), f.t, g.t);
        }
      } else if f.pos < |f.proc| {
        FetchBound(m, tco, s.w, t.w, Init(s.fs), Init(t.fs), f, g);
      } else {
        ExhaustBound(m, f, g, s.w, t.w);
        PushBound(m, s.w, t.w, Init(s.fs), Init(t.fs), Exhaust(f, s.w), Exhaust(g, t.w));
      }
    }
  }

  lemma FetchBound(m: Replaced, tco: bool, w: World, v: World, fs: seq<Frame>, gs: seq<Frame>, f: Frame, g: Frame)
    requires BoundWorld(m, w, v) && BoundFrames(m, fs, gs) && BoundFrame(m, f, g)
    requires f.Walk? && g.Walk? && 0 <= f.pos < |f.proc|
    ensures BoundState(m, Fetch(tco, w, fs, f), Fetch(tco, v, gs, g))
  {
    hide Bound, BoundDictionaries, BoundDictionary;
    BoundReflAny(m);
    BoundAlike(m, f.proc[f.pos], g.proc[f.pos]);
  }

  /** Every run of the original is followed by a run of its bound form that is no longer. */
  lemma {:induction false} OriginalDrivesBound(m: Replaced, tco: bool, s: State, t: State, n: nat) returns (k: nat)
    requires Inv(s) && Inv(t) && BoundState(m, s, t) && ISTOPPED !in m
    requires forall i: nat :: i < n ==> Keeps(m, Run(tco, s, i).w)
    ensures k <= n && BoundState(m, Run(tco, s, n), Run(tco, t, k))
    decreases n
  {
    hide Step, BoundState, Keeps;
    if n == 0 {
      k := 0;
    } else {
      assert Keeps(m, Run(tco, s, 0).w);
      StepBound(m, tco, s, t);
      StepKeepsInv(tco, s);
      StepKeepsInv(tco, t);
      forall i: nat | i < n - 1 ensures Keeps(m, Run(tco, Step(tco, s), i).w) {
        assert Keeps(m, Run(tco, s, i + 1).w);
      }
      if Behind(s, t) {
        k := OriginalDrivesBound(m, tco, Step(tco, s), t, n - 1);
      } else {
        k := OriginalDrivesBound(m, tco, Step(tco, s), Step(tco, t), n - 1);
        k := k + 1;
      }
    }
  }

  /** The original never rebinds a replaced name. */
  ghost predicate NeverRebinds(m: Replaced, tco: bool, s: State)
    requires Inv(s)
  {
    forall i: nat :: Keeps(m, Run(tco, s, i).w)
  }

  /** Every run of the bound form is followed by a run of the original. */
  lemma {:induction false} BoundDrivesOriginal(m: Replaced, tco: bool, s: State, t: State, k: nat) returns (n: nat)
    requires Inv(s) && Inv(t) && BoundState(m, s, t) && ISTOPPED !in m
    requires NeverRebinds(m, tco, s)
    ensures BoundState(m, Run(tco, s, n), Run(tco, t, k))
    decreases k, Behind(s, t)
  {
    hide Step, BoundState, Keeps;
    if k == 0 {
      n := 0;
    } else {
      assert Keeps(m, Run(tco, s, 0).w);
      StepBound(m, tco, s, t);
      StepKeepsInv(tco, s);
      StepKeepsInv(tco, t);
      forall i: nat ensures Keeps(m, Run(tco, Step(tco, s), i).w) {
        assert Keeps(m, Run(tco, s, i + 1).w);
      }
      if Behind(s, t) {
        n := BoundDrivesOriginal(m, tco, Step(tco, s), t, k);
      } else {
        n := BoundDrivesOriginal(m, tco, Step(tco, s), Step(tco, t), k - 1);
      }
      n := n + 1;
    }
  }

  /** `bind` preserves meaning: executing a body and executing its bound form, in a run that
      never rebinds a replaced name, both halt or both do not, and they halt with the same
      error state and with operand stacks and dictionaries that are equal but for names that
      are replaced in procedures left there. */
  lemma BindPreservesMeaning(tco: bool, w: World, rest: seq<Frame>, body: seq<Token>)
    requires var s := State(w, rest + [TokF(Proc(body))]);
             Inv(s) && NeverRebinds(ReplacedIn(w, body), tco, s)
    requires ISTOPPED !in ReplacedIn(w, body)
    ensures
      var m := ReplacedIn(w, body);
      var s, t := State(w, rest + [TokF(Proc(body))]), State(w, rest + [TokF(Proc(BindBody(w, body)))]);
      && Inv(t)
      && (forall u :: HaltsWith(tco, s, u) ==> exists v :: HaltsWith(tco, t, v) && BoundWorld(m, u, v))
      && (forall v :: HaltsWith(tco, t, v) ==> exists u :: HaltsWith(tco, s, u) && BoundWorld(m, u, v))
  {
    var m := ReplacedIn(w, body);
    var s, t := State(w, rest + [TokF(Proc(body))]), State(w, rest + [TokF(Proc(BindBody(w, body)))]);
    StartIsBound(w, rest, body, m);
    hide *;
    forall u | HaltsWith(tco, s, u) ensures exists v :: HaltsWith(tco, t, v) && BoundWorld(m, u, v) {
      BoundHaltsToo(m, tco, s, t, u);
    }
    forall v | HaltsWith(tco, t, v) ensures exists u :: HaltsWith(tco, s, u) && BoundWorld(m, u, v) {
      OriginalHaltsToo(m, tco, s, t, v);
    }
  }

  lemma StartIsBound(w: World, rest: seq<Frame>, body: seq<Token>, m: Replaced)
    requires Inv(State(w, rest + [TokF(Proc(body))])) && m == ReplacedIn(w, body)
    ensures
      var s, t := State(w, rest + [TokF(Proc(body))]), State(w, rest + [TokF(Proc(BindBody(w, body)))]);
      Inv(t) && BoundState(m, s, t)
  {
    var s, t := State(w, rest + [TokF(Proc(body))]), State(w, rest + [TokF(Proc(BindBody(w, body)))]);
    BoundReflWorld(m, w);
    BoundReflFrames(m, rest);
    BodyIsBound(w, body, m);
    assert Init(s.fs) == rest == Init(t.fs);
  }

  lemma BoundHaltsToo(m: Replaced, tco: bool, s: State, t: State, u: World)
    requires Inv(s) && Inv(t) && BoundState(m, s, t) && ISTOPPED !in m
    requires NeverRebinds(m, tco, s) && HaltsWith(tco, s, u)
    ensures exists v :: HaltsWith(tco, t, v) && BoundWorld(m, u, v)
  {
    var n :| Run(tco, s, n) == State(u, []);
    hide Run, Inv;
    var k := OriginalDrivesBound(m, tco, s, t, n);
    assert Run(tco, t, k) == State(Run(tco, t, k).w, []);
    assert HaltsWith(tco, t, Run(tco, t, k).w);
  }

  lemma OriginalHaltsToo(m: Replaced, tco: bool, s: State, t: State, v: World)
    requires Inv(s) && Inv(t) && BoundState(m, s, t) && ISTOPPED !in m
    requires NeverRebinds(m, tco, s) && HaltsWith(tco, t, v)
    ensures exists u :: HaltsWith(tco, s, u) && BoundWorld(m, u, v)
  {
    var k :| Run(tco, t, k) == State(v, []);
    hide Run, Inv;
    var n := BoundDrivesOriginal(m, tco, s, t, k);
    assert Run(tco, s, n) == State(Run(tco, s, n).w, []);
    assert HaltsWith(tco, s, Run(tco, s, n).w);
  }
}
