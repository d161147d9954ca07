/** Runs of the reference machine and the invariant that every run keeps. */
module Runs {
  import opened Tokens
  import opened Machine

  lemma OperateIsWellFormed(op: Op, w: World)
    requires !Unwinds(op)
    ensures forall f :: f in Operate(op, w).push ==> WellFormed(f)
    ensures forall i :: 0 <= i < |Operate(op, w).push| - 1 ==> Resting(Operate(op, w).push[i])
  {
    if |w.ost| >= Arity(op) && (op.Map? || op.MapIndexed? || op.MapThread?) && Pick(w.ost, 0).Proc? {
      if op.MapThread? && Pick(w.ost, 1).Arr? && Pick(w.ost, 1).items != []
         && Pick(w.ost, 1).items[0].Arr? {
        RowErrorIsRectangular(Pick(w.ost, 1).items, |Pick(w.ost, 1).items[0].items|);
      }
    }
  }

  lemma ExhaustIsWellFormed(f: Frame, w: World)
    requires f.Walk? && WellFormed(f)
    ensures forall g :: g in Exhaust(f, w).push ==> WellFormed(g)
    ensures forall i :: 0 <= i < |Exhaust(f, w).push| - 1 ==> Resting(Exhaust(f, w).push[i])
  {
  }

  lemma UnwindLoopIsPrefix(fs: seq<Frame>)
    ensures UnwindLoop(fs).Some? ==> UnwindLoop(fs).value < fs && IsLoop(fs[|UnwindLoop(fs).value|])
  {}

  lemma UnwindStoppedIsPrefix(fs: seq<Frame>)
    ensures UnwindStopped(fs).Some? ==>
              UnwindStopped(fs).value < fs && fs[|UnwindStopped(fs).value|] == SENTINEL
  {}

  lemma UnwindReturnIsPrefix(fs: seq<Frame>, passed: bool)
    ensures UnwindReturn(fs, passed).Some? ==> UnwindReturn(fs, passed).value <= fs
  {}

  lemma PerformKeepsInv(op: Op, w: World, rest: seq<Frame>)
    requires forall f :: f in rest ==> WellFormed(f) && Resting(f)
    ensures Inv(Perform(op, w, rest))
  {
    UnwindLoopIsPrefix(rest);
    UnwindReturnIsPrefix(rest, false);
    UnwindStoppedIsPrefix(rest);
    if !Unwinds(op) {
      OperateIsWellFormed(op, w);
    }
  }

  /** Every step keeps the invariant. */
  lemma StepKeepsInv(tco: bool, s: State)
    requires Inv(s)
    ensures Inv(Step(tco, s))
  {
    if s.fs != [] {
      var f, rest := Last(s.fs), Init(s.fs);
      assert f in s.fs;
      if f.TokF? {
        DispatchKeepsInv(s.w, rest, f.t);
      } else if f.pos >= |f.proc| {
        var o := Exhaust(f, s.w);
        ExhaustIsWellFormed(f, s.w);
        hide Exhaust;
        assert Step(tco, s) == State(o.w, rest + o.push);
      }
    }
  }

  lemma DispatchKeepsInv(w: World, rest: seq<Frame>, t: Token)
    requires forall f :: f in rest ==> WellFormed(f) && Resting(f)
    ensures Inv(Dispatch(w, rest, t))
  {
    hide Perform, Find, Raise, Executable;
    if t.Func? {
      PerformKeepsInv(t.op, w, rest);
    }
  }

  // ---- positions and counters ----

  /** A position lies within its body, or at its end, and a counter within its array. */
  predicate BoundedFrame(f: Frame) {
    f.Walk? ==>
      && f.pos <= |f.proc|
      && (f.kind.KForall? ==> f.kind.idx <= |f.kind.items|)
      && (f.kind.KForallIndexed? ==> f.kind.count <= f.kind.limit)
  }

  predicate Bounded(fs: seq<Frame>) {
    forall f :: f in fs ==> BoundedFrame(f)
  }

  lemma OperateIsBounded(op: Op, w: World)
    requires !Unwinds(op)
    ensures Bounded(Operate(op, w).push)
  {
  }

  lemma ExhaustIsBounded(f: Frame, w: World)
    requires f.Walk? && WellFormed(f) && BoundedFrame(f)
    ensures Bounded(Exhaust(f, w).push)
  {
  }

  lemma PerformKeepsBounds(op: Op, w: World, rest: seq<Frame>)
    requires Bounded(rest)
    ensures Bounded(Perform(op, w, rest).fs)
  {
    UnwindLoopIsPrefix(rest);
    UnwindReturnIsPrefix(rest, false);
    UnwindStoppedIsPrefix(rest);
    if !Unwinds(op) {
      OperateIsBounded(op, w);
      hide Operate;
    }
  }

  /** Every step keeps every position within its body and every counter within its array. */
  lemma StepKeepsBounds(tco: bool, s: State)
    requires Inv(s) && Bounded(s.fs)
    ensures Bounded(Step(tco, s).fs)
  {
    if s.fs != [] {
      var f, rest := Last(s.fs), Init(s.fs);
      assert f in s.fs && Bounded(rest);
      hide Perform, Exhaust, Find, Raise, Executable;
      if f.TokF? {
        if f.t.Func? { PerformKeepsBounds(f.t.op, s.w, rest); }
      } else if f.pos >= |f.proc| {
        ExhaustIsBounded(f, s.w);
      }
    }
  }

  // ---- runs ----

  ghost function Run(tco: bool, s: State, n: nat): (r: State)
    requires Inv(s)
    ensures Inv(r)
    decreases n
  {
    if n == 0 then s
    else
      StepKeepsInv(tco, s);
      Run(tco, Step(tco, s), n - 1)
  }

  /** In every run 0 <= pos <= |proc| for every body walk, and no counter of a `forall` runs
      past its array. */
  lemma {:induction false} RunKeepsBounds(tco: bool, s: State, n: nat)
    requires Inv(s) && Bounded(s.fs)
    ensures
      var r := Run(tco, s, n);
      && Bounded(r.fs)
      && forall f :: f in r.fs && f.Walk? ==> 0 <= f.pos <= |f.proc|
    decreases n
  {
    if n > 0 {
      StepKeepsInv(tco, s);
      StepKeepsBounds(tco, s);
      RunKeepsBounds(tco, Step(tco, s), n - 1);
    }
  }

  lemma {:induction false} RunSplits(tco: bool, s: State, m: nat, n: nat)
    requires Inv(s)
    ensures Run(tco, s, m + n) == Run(tco, Run(tco, s, m), n)
    decreases m
  {
    assert s.fs != [] ==> WellFormed(Last(s.fs));
    hide Inv, WellFormed, StepTop;
    if m > 0 {
      StepKeepsInv(tco, s);
      RunSplits(tco, Step(tco, s), m - 1, n);
    }
  }

  lemma RunLast(tco: bool, s: State, n: nat)
    requires Inv(s)
    ensures Run(tco, s, n + 1) == Step(tco, Run(tco, s, n))
  {
    RunSplits(tco, s, n, 1);
    RunOne(tco, Run(tco, s, n));
  }

  lemma RunNothing(tco: bool, s: State)
    requires Inv(s)
    ensures Run(tco, s, 0) == s
  {
  }

  lemma RunOne(tco: bool, s: State)
    requires Inv(s)
    ensures Run(tco, s, 1) == Step(tco, s)
  {}

  lemma {:induction false} HaltedStays(tco: bool, s: State, n: nat)
    requires s.fs == []
    ensures Run(tco, s, n) == s
  {
    if n > 0 {
      HaltedStays(tco, s, n - 1);
    }
  }

  lemma HaltedBefore(tco: bool, s: State, m: nat, n: nat)
    requires Inv(s) && m <= n && Run(tco, s, m).fs == []
    ensures Run(tco, s, n) == Run(tco, s, m)
  {
    RunSplits(tco, s, m, n - m);
    HaltedStays(tco, Run(tco, s, m), n - m);
  }

  /** The run from s ends, and with this world. */
  ghost predicate HaltsWith(tco: bool, s: State, w: World)
    requires Inv(s)
  {
    exists n :: Run(tco, s, n) == State(w, [])
  }

  /** There is at most one such world. */
  lemma HaltsOnce(tco: bool, s: State, v: World, w: World)
    requires Inv(s) && HaltsWith(tco, s, v) && HaltsWith(tco, s, w)
    ensures v == w
  {
    var m :| Run(tco, s, m) == State(v, []);
    var n :| Run(tco, s, n) == State(w, []);
    RunSplits(tco, s, m, n);
    RunSplits(tco, s, n, m);
    HaltedStays(tco, State(v, []), n);
    HaltedStays(tco, State(w, []), m);
  }

  /** The run from s gets to t. */
  ghost predicate Reaches(tco: bool, s: State, t: State)
    requires Inv(s)
  {
    exists n :: Run(tco, s, n) == t
  }

  lemma ReachesStep(tco: bool, s: State)
    requires Inv(s)
    ensures Reaches(tco, s, Step(tco, s))
  {
    RunOne(tco, s);
  }

  lemma ReachesTrans(tco: bool, s: State, t: State, u: State)
    requires Inv(s) && Reaches(tco, s, t) && Inv(t) && Reaches(tco, t, u)
    ensures Reaches(tco, s, u)
  {
    var m :| Run(tco, s, m) == t;
    var n :| Run(tco, t, n) == u;
    RunSplits(tco, s, m, n);
  }

  // ---- bindings only come ----

  /** What v binds at least, w binds too. */
  predicate BindsMore(v: World, w: World) {
    v.below == w.below && forall n :: n in w.current ==> n in v.current
  }

  lemma StepKeepsBinding(tco: bool, s: State, n: Name)
    requires Inv(s) && Find(s.w, n).Some?
    ensures Find(Step(tco, s).w, n).Some?
  {
    if s.fs != [] {
      var f := Last(s.fs);
      assert f in s.fs;
      hide Exhaust, Perform, Raise, Executable;
      if f.TokF? {
        if f.t.Func? { PerformBindsMore(f.t.op, s.w, Init(s.fs)); }
      } else if f.pos >= |f.proc| {
        ExhaustBindsMore(f, s.w);
      }
      RaiseBinds(s.w, INTERPRETER, "UndefinedName");
    }
  }

  lemma RaiseBinds(w: World, cmd: Name, e: Name)
    ensures BindsMore(Raise(w, cmd, e), w)
  {}

  lemma ExhaustBindsMore(f: Frame, w: World)
    requires f.Walk? && WellFormed(f)
    ensures BindsMore(Exhaust(f, w).w, w)
  {}

  lemma PerformBindsMore(op: Op, w: World, rest: seq<Frame>)
    ensures BindsMore(Perform(op, w, rest).w, w)
  {
    if !Unwinds(op) { OperateBindsMore(op, w); }
    hide Operate;
  }

  lemma OperateBindsMore(op: Op, w: World)
    requires !Unwinds(op)
    ensures BindsMore(Operate(op, w).w, w)
  {
    if |w.ost| >= Arity(op) && IsLoopOp(op) {
      LoopOpBindsMore(op, w);
    }
    hide OperateLoop;
  }

  lemma LoopOpBindsMore(op: Op, w: World)
    requires IsLoopOp(op) && |w.ost| >= Arity(op)
    ensures BindsMore(OperateLoop(op, w).w, w)
  {
    hide RowError;
  }

  lemma {:induction false} RunKeepsBinding(tco: bool, s: State, k: nat, n: Name)
    requires Inv(s) && Find(s.w, n).Some?
    ensures Find(Run(tco, s, k).w, n).Some?
    decreases k
  {
    if k > 0 {
      StepKeepsInv(tco, s);
      StepKeepsBinding(tco, s, n);
      RunKeepsBinding(tco, Step(tco, s), k - 1, n);
    }
  }
}
