/** Dropping a procedure's frame before its last executable token does not change what a
    program computes, unless a `return` leaves a procedure that has nothing left to run. */
module TailCall {
  import opened Tokens
  import opened Machine
  import opened Runs
  import opened Absence

  /** A procedure frame with nothing left to run. */
  predicate Done(f: Frame) {
    f.Walk? && f.kind.KProc? && f.pos >= |f.proc|
  }

  /** `short` is `full` without some of its finished procedure frames. */
  predicate Erased(full: seq<Frame>, short: seq<Frame>) {
    if full == [] then short == []
    else
      || (Done(Last(full)) && Erased(Init(full), short))
      || (short != [] && Last(full) == Last(short) && Erased(Init(full), Init(short)))
  }

  predicate Simulates(full: State, short: State) {
    full.w == short.w && Erased(full.fs, short.fs)
  }

  /** `return` with these frames below it leaves a procedure that has nothing left to run. */
  predicate LeavesDone(fs: seq<Frame>) {
    fs != [] && (if IsLoop(Last(fs)) then LeavesDone(Init(fs)) else Done(Last(fs)))
  }

  /** The next step is such a `return`. */
  predicate ReturnsFromDone(s: State) {
    s.fs != [] && Last(s.fs) == TokF(Func(Return)) && LeavesDone(Init(s.fs))
  }

  lemma ErasedRefl(fs: seq<Frame>)
    ensures Erased(fs, fs)
  {}

  lemma {:induction false} ErasedAppend(full: seq<Frame>, short: seq<Frame>, more: seq<Frame>)
    requires Erased(full, short)
    ensures Erased(full + more, short + more)
    decreases |more|
  {
    if more == [] {
      assert full + more == full && short + more == short;
    } else {
      ErasedAppend(full, short, Init(more));
      assert Init(full + more) == full + Init(more);
      assert Init(short + more) == short + Init(more);
    }
  }

  lemma {:induction false} ErasedUnwindLoop(full: seq<Frame>, short: seq<Frame>)
    requires Erased(full, short)
    ensures UnwindLoop(full).None? <==> UnwindLoop(short).None?
    ensures UnwindLoop(full).Some? ==> Erased(UnwindLoop(full).value, UnwindLoop(short).value)
  {
    if full != [] {
      if Done(Last(full)) && Erased(Init(full), short) {
        ErasedUnwindLoop(Init(full), short);
      } else {
        ErasedUnwindLoop(Init(full), Init(short));
      }
    }
  }

  lemma {:induction false} ErasedUnwindStopped(full: seq<Frame>, short: seq<Frame>)
    requires Erased(full, short)
    ensures UnwindStopped(full).None? <==> UnwindStopped(short).None?
    ensures UnwindStopped(full).Some? ==>
              Erased(UnwindStopped(full).value, UnwindStopped(short).value)
  {
    if full != [] {
      if Done(Last(full)) && Erased(Init(full), short) {
        ErasedUnwindStopped(Init(full), short);
      } else {
        ErasedUnwindStopped(Init(full), Init(short));
      }
    }
  }

  lemma ErasedPerform(op: Op, w: World, full: seq<Frame>, short: seq<Frame>)
    requires Erased(full, short) && !op.Return?
    ensures Simulates(Perform(op, w, full), Perform(op, w, short))
  {
    ErasedAppend(full, short, [STOP]);
    if op.Exit? {
      ErasedUnwindLoop(full, short);
    } else if op.Stop? {
      ErasedUnwindStopped(full, short);
    } else {
      ErasedAppend(full, short, Operate(op, w).push);
    }
  }

  // ---- one `return` ----

  /** What `return` does with the frames `full` and with `short`, which lacks some finished
      ones, is the same: if a finished procedure goes in `full`, then in `short`, below the
      same loops, lies a finished one too, or else, once a loop is stepped over, a token. */
  predicate ReturnsAlike(full: seq<Frame>, short: seq<Frame>, passed: bool) {
    if full == [] then true
    else if IsLoop(Last(full)) then short != [] && ReturnsAlike(Init(full), Init(short), true)
    else if Done(Last(full)) then short != [] && (Done(Last(short)) || (passed && Last(short).TokF?))
    else true
  }

  /** A finished frame may go from the shorter stack. */
  lemma {:induction false} ErasedMore(full: seq<Frame>, short: seq<Frame>)
    requires Erased(full, short) && short != [] && Done(Last(short))
    ensures Erased(full, Init(short))
  {
    if full != [] && Erased(Init(full), short) {
      ErasedMore(Init(full), short);
    }
  }

  function Unfinished(fs: seq<Frame>): nat {
    if fs == [] then 0 else Unfinished(Init(fs)) + if Done(Last(fs)) then 0 else 1
  }

  lemma {:induction false} ErasedIsUnfinished(full: seq<Frame>, short: seq<Frame>)
    requires Erased(full, short)
    ensures Unfinished(full) == Unfinished(short)
  {
    if full != [] {
      if Done(Last(full)) && Erased(Init(full), short) {
        ErasedIsUnfinished(Init(full), short);
      } else {
        ErasedIsUnfinished(Init(full), Init(short));
      }
    }
  }

  lemma {:induction false} FewerUnfinished(fs: seq<Frame>, passed: bool)
    ensures UnwindReturn(fs, passed).Some? ==> Unfinished(UnwindReturn(fs, passed).value) <= Unfinished(fs)
  {
    if fs != [] && IsLoop(Last(fs)) {
      FewerUnfinished(Init(fs), true);
    }
  }

  /** `UnwindReturn` has related results. */
  predicate UnwindsAlike(full: seq<Frame>, short: seq<Frame>, passed: bool) {
    var f, s := UnwindReturn(full, passed), UnwindReturn(short, passed);
    if f.None? then s.None? else s.Some? && Erased(f.value, s.value)
  }

  lemma {:induction false} ErasedUnwindReturn(full: seq<Frame>, short: seq<Frame>, passed: bool)
    requires Erased(full, short)
    ensures UnwindsAlike(full, short, passed) <==> ReturnsAlike(full, short, passed)
  {
    if full != [] {
      if IsLoop(Last(full)) {
        ErasedUnwindReturn(Init(full), Init(short), true);
      } else if Done(Last(full)) {
        LeavingDone(full, short, passed);
      }
    }
  }

  /** The frame that goes in `full` is finished. */
  lemma LeavingDone(full: seq<Frame>, short: seq<Frame>, passed: bool)
    requires Erased(full, short) && full != [] && Done(Last(full))
    ensures UnwindsAlike(full, short, passed)
            <==> short != [] && (Done(Last(short)) || (passed && Last(short).TokF?))
  {
    if short != [] {
      if Done(Last(short)) {
        if Erased(Init(full), short) { ErasedMore(Init(full), short); }
      } else if !Last(short).TokF? {
        if UnwindsAlike(full, short, passed) {
          ErasedIsUnfinished(full, short);
          ErasedIsUnfinished(Init(full), UnwindReturn(short, passed).value);
          if IsLoop(Last(short)) { FewerUnfinished(Init(short), true); }
        }
      }
    }
  }

  /** Where the two machines perform a `return` in related states, they stay related exactly
      if it returns alike. */
  lemma ReturnSimulates(w: World, full: seq<Frame>, short: seq<Frame>)
    requires Erased(full, short)
    ensures Simulates(Perform(Return, w, full), Perform(Return, w, short)) <==> ReturnsAlike(full, short, false)
  {
    ErasedUnwindReturn(full, short, false);
    ErasedAppend(full, short, [STOP]);
    assert Raise(w, OpName(Return), "InvalidReturn").ost != w.ost;
    hide Raise, UnwindReturn, ReturnsAlike;
  }

  /** So they do if no finished procedure is left. */
  lemma {:induction false} LivingReturnsAlike(full: seq<Frame>, short: seq<Frame>, passed: bool)
    requires Erased(full, short) && !LeavesDone(full)
    ensures ReturnsAlike(full, short, passed)
  {
    if full != [] && IsLoop(Last(full)) {
      LivingReturnsAlike(Init(full), Init(short), true);
    }
  }

  // ---- steps and runs ----

  /** The finished frames on top of `full` that `short` does not have. */
  function Lag(full: seq<Frame>, short: seq<Frame>): (n: nat)
    requires Erased(full, short)
    ensures n <= |full|
  {
    if full != [] && Done(Last(full)) && Erased(Init(full), short) then 1 + Lag(Init(full), short)
    else 0
  }

  /** The next step is no `return`, or one that does the same in both machines. */
  predicate StepsAlike(full: seq<Frame>, short: seq<Frame>) {
    full != [] && short != [] && Last(full) == TokF(Func(Return)) ==>
      ReturnsAlike(Init(full), Init(short), false)
  }

  /** One step of the machine that keeps frames is matched by none of the machine that drops
      them where a finished frame goes, and otherwise by one, exactly if they step alike. */
  lemma StepSimulates(full: State, short: State)
    requires Inv(full) && Inv(short) && Simulates(full, short)
    ensures if Lag(full.fs, short.fs) > 0
            then Simulates(Step(false, full), short)
                 && Lag(Step(false, full).fs, short.fs) == Lag(full.fs, short.fs) - 1
            else Simulates(Step(false, full), Step(true, short)) <==> StepsAlike(full.fs, short.fs)
  {
    if full.fs == [] || Lag(full.fs, short.fs) > 0 {
      if full.fs != [] {
        assert Init(full.fs) + [] == Init(full.fs);
      }
    } else {
      var f := Last(full.fs);
      assert f in full.fs && Last(short.fs) == f;
      hide StepTop, Inv, WellFormed;
      TopSimulates(full.w, Init(full.fs), Init(short.fs), f);
    }
  }

  lemma TopSimulates(w: World, full: seq<Frame>, short: seq<Frame>, f: Frame)
    requires Erased(full, short) && WellFormed(f)
    ensures Simulates(StepTop(false, w, full, f), StepTop(true, w, short, f))
            <==> (f == TokF(Func(Return)) ==> ReturnsAlike(full, short, false))
  {
    hide Perform, Exhaust, Fetch;
    if f.TokF? {
      match f.t
      case Func(op) =>
        if op.Return? {
          ReturnSimulates(w, full, short);
        } else {
          ErasedPerform(op, w, full, short);
        }
      case _ => DispatchSimulates(w, full, short, f.t);
    } else if f.pos < |f.proc| {
      FetchSimulates(w, full, short, f);
    } else {
      var o := Exhaust(f, w);
      ErasedAppend(full, short, o.push);
    }
  }

  /** If no finished procedure is left the machines step alike. */
  lemma LivingStepsAlike(full: State, short: State)
    requires Simulates(full, short) && Lag(full.fs, short.fs) == 0 && !ReturnsFromDone(full)
    ensures StepsAlike(full.fs, short.fs)
  {
    if full.fs != [] && Last(full.fs) == TokF(Func(Return)) {
      LivingReturnsAlike(Init(full.fs), Init(short.fs), false);
    }
  }

  lemma DispatchSimulates(w: World, full: seq<Frame>, short: seq<Frame>, t: Token)
    requires Erased(full, short) && !t.Func?
    ensures Simulates(Dispatch(w, full, t), Dispatch(w, short, t))
  {
    hide Erased, Find, Raise, Perform, Executable;
    match t
    case Nam(n) =>
      ErasedAppend(full, short, [TokF(t), STOP]);
      if Find(w, n).Some? { ErasedAppend(full, short, [TokF(Find(w, n).value)]); }
    case Proc(body) => ErasedAppend(full, short, [Walk(KProc, body, 0)]);
    case _ =>
  }

  lemma FetchSimulates(w: World, full: seq<Frame>, short: seq<Frame>, f: Frame)
    requires Erased(full, short)
    requires f.Walk? && 0 <= f.pos < |f.proc|
    ensures Simulates(Fetch(false, w, full, f), Fetch(true, w, short, f))
  {
    var f', t := f.(pos := f.pos + 1), TokF(f.proc[f.pos]);
    if TailCall(f) {
      assert Init(full + [f']) == full;
      assert Erased(full + [f'], short);
      ErasedAppend(full + [f'], short, [t]);
      assert full + [f'] + [t] == full + [f', t];
    } else {
      ErasedAppend(full, short, [f', t]);
    }
  }

  /** Every run of the keeping machine is followed by a run of the dropping one. */
  lemma {:induction false} FullDrivesShort(full: State, short: State, n: nat) returns (m: nat)
    requires Inv(full) && Inv(short) && Simulates(full, short)
    requires forall k: nat :: k < n ==> !ReturnsFromDone(Run(false, full, k))
    ensures m <= n
    ensures Simulates(Run(false, full, n), Run(true, short, m))
    decreases n
  {
    hide Step, ReturnsFromDone;
    if n == 0 {
      m := 0;
    } else {
      assert !ReturnsFromDone(Run(false, full, 0));
      StepSimulates(full, short);
      StepKeepsInv(false, full);
      StepKeepsInv(true, short);
      forall k: nat | k < n - 1 ensures !ReturnsFromDone(Run(false, Step(false, full), k)) {
        assert !ReturnsFromDone(Run(false, full, k + 1));
      }
      if Lag(full.fs, short.fs) > 0 {
        m := FullDrivesShort(Step(false, full), short, n - 1);
      } else {
        LivingStepsAlike(full, short);
        m := FullDrivesShort(Step(false, full), Step(true, short), n - 1);
        m := m + 1;
      }
    }
  }

  /** Every run of the dropping machine is followed by a run of the keeping one. */
  lemma {:induction false} ShortDrivesFull(full: State, short: State, m: nat) returns (n: nat)
    requires Inv(full) && Inv(short) && Simulates(full, short)
    requires forall k: nat :: !ReturnsFromDone(Run(false, full, k))
    ensures Simulates(Run(false, full, n), Run(true, short, m))
    ensures Lag(Run(false, full, n).fs, Run(true, short, m).fs) == 0
    decreases m, Lag(full.fs, short.fs)
  {
    hide Step, ReturnsFromDone;
    assert !ReturnsFromDone(Run(false, full, 0));
    StepKeepsInv(false, full);
    StepKeepsInv(true, short);
    forall k: nat ensures !ReturnsFromDone(Run(false, Step(false, full), k)) {
      assert !ReturnsFromDone(Run(false, full, k + 1));
    }
    StepSimulates(full, short);
    if Lag(full.fs, short.fs) > 0 {
      n := ShortDrivesFull(Step(false, full), short, m);
      n := n + 1;
    } else if m == 0 {
      n := 0;
    } else {
      LivingStepsAlike(full, short);
      n := ShortDrivesFull(Step(false, full), Step(true, short), m - 1);
      n := n + 1;
    }
  }

  /** No `return` that the program performs leaves a procedure that has nothing left to run. */
  ghost predicate NeverReturnsFromDone(s: State)
    requires Inv(s)
  {
    forall k: nat :: !ReturnsFromDone(Run(false, s, k))
  }

  /** Tail-call elimination preserves meaning: with and without it a program that never returns
      from a finished procedure halts with the same operand stack, dictionaries and error
      state, or does not halt at all. */
  lemma TailCallsPreserveMeaning(s: State, w: World)
    requires Inv(s) && NeverReturnsFromDone(s)
    ensures HaltsWith(false, s, w) <==> HaltsWith(true, s, w)
  {
    ErasedRefl(s.fs);
    if HaltsWith(false, s, w) {
      var n :| Run(false, s, n) == State(w, []);
      var m := FullDrivesShort(s, s, n);
      assert Run(true, s, m) == State(w, []);
    }
    if HaltsWith(true, s, w) {
      var m :| Run(true, s, m) == State(w, []);
      var n := ShortDrivesFull(s, s, m);
      assert Run(false, s, n) == State(w, []);
    }
  }

  // ---- what the elimination is for ----

  /** Below another frame no procedure has nothing left to run, but for the one whose last
      token, a literal or a mark, is about to be moved. */
  predicate Lean(fs: seq<Frame>) {
    forall i :: 0 <= i < |fs| - 1 && Done(fs[i]) ==>
      i == |fs| - 2 && fs[i + 1].TokF? && !Executable(fs[i + 1].t)
  }

  predicate NoneDone(fs: seq<Frame>) {
    forall f :: f in fs ==> !Done(f)
  }

  lemma NoneDoneBelow(rest: seq<Frame>, f: Frame)
    requires Lean(rest + [f]) && !(f.TokF? && !Executable(f.t))
    ensures NoneDone(rest)
  {
    forall i | 0 <= i < |rest| ensures !Done(rest[i]) {
      assert (rest + [f])[i] == rest[i] && (rest + [f])[|rest|] == f;
    }
  }

  lemma OperateIsLean(op: Op, w: World)
    requires !Unwinds(op)
    ensures NoneDone(Operate(op, w).push)
  {
  }

  lemma PerformIsLean(op: Op, w: World, rest: seq<Frame>)
    requires NoneDone(rest)
    ensures NoneDone(Perform(op, w, rest).fs)
  {
    UnwindLoopIsPrefix(rest);
    UnwindReturnIsPrefix(rest, false);
    UnwindStoppedIsPrefix(rest);
    if !Unwinds(op) {
      OperateIsLean(op, w);
      hide Operate;
    }
  }

  lemma DispatchIsLean(w: World, rest: seq<Frame>, t: Token)
    requires NoneDone(rest) || (!Executable(t) && Lean(rest + [TokF(t)]))
    ensures Lean(Dispatch(w, rest, t).fs)
  {
    hide Perform, Find, Raise;
    if t.Func? {
      PerformIsLean(t.op, w, rest);
    } else if !Executable(t) {
      assert forall i :: 0 <= i < |rest| ==> (rest + [TokF(t)])[i] == rest[i];
    }
  }

  lemma ExhaustIsLean(f: Frame, w: World)
    requires f.Walk? && WellFormed(f)
    ensures NoneDone(Exhaust(f, w).push)
  {
  }

  /** Every step that drops frames keeps the stack lean. */
  lemma StepStaysLean(s: State)
    requires Inv(s) && Lean(s.fs)
    ensures Lean(Step(true, s).fs)
  {
    if s.fs != [] {
      var f, rest := Last(s.fs), Init(s.fs);
      assert f in s.fs && s.fs == rest + [f];
      hide Dispatch, Exhaust, Executable, Inv;
      if !(f.TokF? && !Executable(f.t)) { NoneDoneBelow(rest, f); }
      if f.TokF? {
        DispatchIsLean(s.w, rest, f.t);
      } else if f.pos >= |f.proc| {
        ExhaustIsLean(f, s.w);
      }
    }
  }

  /** So the execution stack does not grow over tail calls: in every run, a procedure that has
      called another one either has something left to run or is gone. */
  lemma {:induction false} RunStaysLean(s: State, n: nat)
    requires Inv(s) && Lean(s.fs)
    ensures Lean(Run(true, s, n).fs)
    decreases n
  {
    if n > 0 {
      StepKeepsInv(true, s);
      StepStaysLean(s);
      RunStaysLean(Step(true, s), n - 1);
    }
  }

  // ---- programs without `return` ----

  const RETURN: Banned := Words({Return}, {})

  /** A program whose text has no `return` never performs one. */
  lemma ReturnFreeNeverReturns(s: State)
    requires Inv(s) && FreeState(RETURN, s)
    ensures NeverReturnsFromDone(s)
  {
    forall k: nat ensures !ReturnsFromDone(Run(false, s, k)) {
      RunKeepsFree(RETURN, false, s, k);
      var r := Run(false, s, k);
      if r.fs != [] { assert Last(r.fs) in r.fs; }
    }
  }

  // ---- programs with `return` ----

  /** `1 {return} {repeat} {exec 5}` run with its three operands already pushed. */
  function Caller(u: World, rest: seq<Frame>): State {
    State(PushAll(u, [Int(1), Proc([Func(Return)]), Proc([Func(Repeat)])]),
          rest + [Walk(KProc, [Func(Exec), Int(5)], 0)])
  }

  lemma CallerRuns(tco: bool, u: World)
    ensures
      Run(tco, Caller(u, []), 3)
      == State(PushAll(u, [Int(1), Proc([Func(Return)])]),
               [Walk(KProc, [Func(Exec), Int(5)], 1), Walk(KProc, [Func(Repeat)], 0)])
  {
    var main := Walk(KProc, [Func(Exec), Int(5)], 1);
    var v := PushAll(u, [Int(1), Proc([Func(Return)])]);
    var w := PushAll(u, [Int(1), Proc([Func(Return)]), Proc([Func(Repeat)])]);
    var s1, s2 := State(w, [main, TokF(Func(Exec))]), State(v, [main, TokF(Proc([Func(Repeat)]))]);
    var s3 := State(v, [main, Walk(KProc, [Func(Repeat)], 0)]);
    hide Step, Run;
    CallerStep(tco, u);
    ExecStep(tco, v, [main], Proc([Func(Repeat)]));
    assert Push(v, Proc([Func(Repeat)])) == w && [main] + [TokF(Func(Exec))] == s1.fs;
    assert [main] + [TokF(Proc([Func(Repeat)]))] == s2.fs;
    ProcStep(tco, v, [main], [Func(Repeat)]);
    assert [main] + [Walk(KProc, [Func(Repeat)], 0)] == s3.fs;
    Run3(tco, Caller(u, []), s1, s2);
  }

  lemma CallerStep(tco: bool, u: World)
    ensures
      var s := Caller(u, []);
      Step(tco, s) == State(s.w, [Walk(KProc, [Func(Exec), Int(5)], 1), TokF(Func(Exec))])
  {
    StepOn(tco, Caller(u, []).w, [], Walk(KProc, [Func(Exec), Int(5)], 0));
  }

  lemma ProcStep(tco: bool, v: World, rest: seq<Frame>, p: seq<Token>)
    ensures Step(tco, State(v, rest + [TokF(Proc(p))])) == State(v, rest + [Walk(KProc, p, 0)])
  {
    StepOn(tco, v, rest, TokF(Proc(p)));
  }

  lemma ExecStep(tco: bool, v: World, rest: seq<Frame>, t: Token)
    ensures Step(tco, State(Push(v, t), rest + [TokF(Func(Exec))])) == State(v, rest + [TokF(t)])
  {
    StepOn(tco, Push(v, t), rest, TokF(Func(Exec)));
    assert Drop(Push(v, t), 1) == v;
  }

  lemma Run3(tco: bool, s: State, a: State, b: State)
    requires Inv(s) && Step(tco, s) == a && Inv(a) && Step(tco, a) == b && Inv(b)
    ensures Run(tco, s, 3) == Step(tco, b)
  {}

  /** From the callee's only token to the loop's: the callee's frame is still there, or not. */
  lemma CalleeRuns(tco: bool, u: World, main: Frame)
    requires main == Walk(KProc, [Func(Exec), Int(5)], 1)
    ensures
      var rest := if tco then [main] else [main, Walk(KProc, [Func(Repeat)], 1)];
      Run(tco, State(PushAll(u, [Int(1), Proc([Func(Return)])]),
                     [main, Walk(KProc, [Func(Repeat)], 0)]), 3)
      == State(u, rest + [Walk(KRepeat(0), [Func(Return)], 0)])
  {
    hide Step, Run;
    var v := PushAll(u, [Int(1), Proc([Func(Return)])]);
    var s := State(v, [main, Walk(KProc, [Func(Repeat)], 0)]);
    var rest := if tco then [main] else [main, Walk(KProc, [Func(Repeat)], 1)];
    var s1 := State(v, rest + [TokF(Func(Repeat))]);
    var s2 := State(u, rest + [Walk(KRepeat(1), [Func(Return)], 1)]);
    CalleeStep(tco, v, main);
    RepeatStep(tco, u, rest);
    RoundStep(tco, u, rest);
    Run3(tco, s, s1, s2);
  }

  lemma CalleeStep(tco: bool, v: World, main: Frame)
    ensures
      var rest := if tco then [main] else [main, Walk(KProc, [Func(Repeat)], 1)];
      Step(tco, State(v, [main, Walk(KProc, [Func(Repeat)], 0)])) == State(v, rest + [TokF(Func(Repeat))])
  {
    var f := Walk(KProc, [Func(Repeat)], 0);
    assert [main] + [f] == [main, f];
    StepOn(tco, v, [main], f);
    assert [main] + [f.(pos := 1), TokF(Func(Repeat))] == [main, f.(pos := 1)] + [TokF(Func(Repeat))];
  }

  lemma RepeatStep(tco: bool, u: World, rest: seq<Frame>)
    ensures Step(tco, State(PushAll(u, [Int(1), Proc([Func(Return)])]), rest + [TokF(Func(Repeat))]))
            == State(u, rest + [Walk(KRepeat(1), [Func(Return)], 1)])
  {
    hide Raise, OperateMap, OperateForall;
    StepOn(tco, PushAll(u, [Int(1), Proc([Func(Return)])]), rest, TokF(Func(Repeat)));
    assert Drop(PushAll(u, [Int(1), Proc([Func(Return)])]), 2) == u;
  }

  lemma RoundStep(tco: bool, u: World, rest: seq<Frame>)
    ensures Step(tco, State(u, rest + [Walk(KRepeat(1), [Func(Return)], 1)]))
            == State(u, rest + [Walk(KRepeat(0), [Func(Return)], 0)])
  {
    StepOn(tco, u, rest, Walk(KRepeat(1), [Func(Return)], 1));
  }

  /** `return` leaves the innermost procedure there is, and then the rest of the caller runs,
      or nothing is left. */
  lemma ReturnRuns(tco: bool, u: World, main: Frame)
    requires main == Walk(KProc, [Func(Exec), Int(5)], 1)
    ensures
      var rest := if tco then [main] else [main, Walk(KProc, [Func(Repeat)], 1)];
      Run(tco, State(u, rest + [Walk(KRepeat(0), [Func(Return)], 0)]), 3)
      == if tco then State(u, []) else Step(false, State(u, [main]))
  {
    var rest := if tco then [main] else [main, Walk(KProc, [Func(Repeat)], 1)];
    var loop := Walk(KRepeat(0), [Func(Return)], 1);
    var s := State(u, rest + [loop.(pos := 0)]);
    StepOn(tco, u, rest, loop.(pos := 0));
    var s1 := State(u, rest + [loop, TokF(Func(Return))]);
    assert s1.fs == rest + [loop] + [TokF(Func(Return))];
    StepOn(tco, u, rest + [loop], TokF(Func(Return)));
    assert Init(rest + [loop]) == rest;
    assert UnwindReturn(rest + [loop], false) == UnwindReturn(rest, true) == Some(Init(rest));
    var s2 := State(u, Init(rest));
    Run3(tco, s, s1, s2);
  }

  /** With such a `return` the two machines differ: the elimination takes away the frame that
      `return` should leave, so it leaves the caller too. */
  lemma TailCallsChangeReturn(u: World)
    ensures HaltsWith(false, Caller(u, []), Push(u, Int(5)))
    ensures HaltsWith(true, Caller(u, []), u)
  {
    var main := Walk(KProc, [Func(Exec), Int(5)], 1);
    CallerRunsToReturn(false, u);
    CallerRunsToReturn(true, u);
    RestOfCaller(u);
    RunSplits(false, Caller(u, []), 9, 2);
  }

  lemma CallerRunsToReturn(tco: bool, u: World)
    ensures
      Run(tco, Caller(u, []), 9)
      == if tco then State(u, []) else Step(false, State(u, [Walk(KProc, [Func(Exec), Int(5)], 1)]))
  {
    CallerRuns(tco, u);
    CalleeRuns(tco, u, Walk(KProc, [Func(Exec), Int(5)], 1));
    ReturnRuns(tco, u, Walk(KProc, [Func(Exec), Int(5)], 1));
    RunSplits(tco, Caller(u, []), 3, 3);
    RunSplits(tco, Caller(u, []), 6, 3);
  }

  lemma RestOfCaller(u: World)
    ensures
      Run(false, Step(false, State(u, [Walk(KProc, [Func(Exec), Int(5)], 1)])), 2)
      == State(Push(u, Int(5)), [])
  {}
}
