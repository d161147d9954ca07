/** What single tokens do, and that a body is the sequence of what its tokens do. */
module Operators {
  import opened Tokens
  import opened Machine
  import opened Runs
  import opened Locality
  import opened Loops

  /** Dispatching t takes the world x to the world y, whatever lies below. */
  ghost predicate Acts(tco: bool, t: Token, x: World, y: World) {
    exists k: nat :: BodyRuns(tco, [], Body(0, [TokF(t)], x), k, Body(0, [], y))
  }

  // ---- bodies in sequence ----

  lemma {:induction false} BodyRunsTrans(tco: bool, p: seq<Token>, b: Body, j: nat, c: Body, k: nat, d: Body)
    requires BodyRuns(tco, p, b, j, c) && BodyRuns(tco, p, c, k, d)
    ensures BodyRuns(tco, p, b, j + k, d)
    decreases j
  {
    hide BodyStep, Going;
    if j > 0 { BodyRunsTrans(tco, p, BodyStep(tco, p, b), j - 1, c, k, d); }
  }

  function Shifted(b: Body, n: nat): Body {
    b.(pos := b.pos + n)
  }

  /** A body runs alike inside a longer one. */
  lemma {:induction false} RunsWithin(tco: bool, pre: seq<Token>, p: seq<Token>, post: seq<Token>,
                                      b: Body, k: nat, c: Body)
    requires BodyRuns(tco, p, b, k, c)
    ensures BodyRuns(tco, pre + p + post, Shifted(b, |pre|), k, Shifted(c, |pre|))
    decreases k
  {
    hide Step, Local, Inv;
    if k > 0 {
      if b.above == [] { assert (pre + p + post)[b.pos + |pre|] == p[b.pos]; }
      assert BodyStep(tco, pre + p + post, Shifted(b, |pre|)) == Shifted(BodyStep(tco, p, b), |pre|);
      RunsWithin(tco, pre, p, post, BodyStep(tco, p, b), k - 1, c);
    }
  }

  /** A body does what its first part does and then what its second part does. */
  lemma EffectsInSequence(tco: bool, p: seq<Token>, q: seq<Token>, x: World, y: World, z: World)
    requires Effect(tco, p, x, y) && Effect(tco, q, y, z)
    ensures Effect(tco, p + q, x, z)
  {
    hide BodyRuns;
    var j: nat :| BodyRuns(tco, p, Body(0, [], x), j, Body(|p|, [], y));
    var k: nat :| BodyRuns(tco, q, Body(0, [], y), k, Body(|q|, [], z));
    RunsWithin(tco, [], p, q, Body(0, [], x), j, Body(|p|, [], y));
    RunsWithin(tco, p, q, [], Body(0, [], y), k, Body(|q|, [], z));
    assert [] + p + q == p + q == p + q + [];
    BodyRunsTrans(tco, p + q, Body(0, [], x), j, Body(|p|, [], y), k, Body(|p + q|, [], z));
  }

  /** A token in a body does what it does on the execution stack. */
  lemma EffectOfToken(tco: bool, t: Token, x: World, y: World)
    requires Acts(tco, t, x, y)
    ensures Effect(tco, [t], x, y)
  {
    hide BodyStep, Going;
    var k: nat :| BodyRuns(tco, [], Body(0, [TokF(t)], x), k, Body(0, [], y));
    RunsWithin(tco, [t], [], [], Body(0, [TokF(t)], x), k, Body(0, [], y));
    assert [t] + [] + [] == [t];
    TokenIsFetched(tco, t, x);
    assert BodyRuns(tco, [t], Body(0, [], x), k + 1, Body(1, [], y));
  }

  lemma TokenIsFetched(tco: bool, t: Token, x: World)
    ensures Going([t], Body(0, [], x)) && BodyStep(tco, [t], Body(0, [], x)) == Body(1, [TokF(t)], x)
  {}

  lemma EffectOfNext(tco: bool, p: seq<Token>, t: Token, x: World, y: World, z: World)
    requires Effect(tco, p, x, y) && Acts(tco, t, y, z)
    ensures Effect(tco, p + [t], x, z)
  {
    hide Effect, Acts;
    EffectOfToken(tco, t, y, z);
    EffectsInSequence(tco, p, [t], x, y, z);
  }

  /** A body has at most one effect. */
  lemma EffectIsUnique(tco: bool, p: seq<Token>, x: World, y: World, z: World)
    requires Effect(tco, p, x, y) && Effect(tco, p, x, z)
    ensures y == z
  {
    var j: nat :| BodyRuns(tco, p, Body(0, [], x), j, Body(|p|, [], y));
    var k: nat :| BodyRuns(tco, p, Body(0, [], x), k, Body(|p|, [], z));
    EndsOnce(tco, p, Body(0, [], x), j, y, k, z);
  }

  lemma {:induction false} EndsOnce(tco: bool, p: seq<Token>, b: Body, j: nat, y: World, k: nat, z: World)
    requires BodyRuns(tco, p, b, j, Body(|p|, [], y)) && BodyRuns(tco, p, b, k, Body(|p|, [], z))
    ensures y == z
    decreases j
  {
    hide BodyStep, Inv, Local;
    if j > 0 && k > 0 { EndsOnce(tco, p, BodyStep(tco, p, b), j - 1, y, k - 1, z); }
  }

  // ---- tokens one step at a time ----

  predicate Unwinding(t: Token) {
    t.Func? && Unwinds(t.op)
  }

  lemma StepOfToken(tco: bool, t: Token, x: World)
    requires !Unwinding(t)
    ensures Going([], Body(0, [TokF(t)], x))
    ensures
      var s := Dispatch(x, [], t);
      BodyStep(tco, [], Body(0, [TokF(t)], x)) == Body(0, s.fs, s.w)
  {
    assert [] + [TokF(t)] == [TokF(t)];
    StepOn(tco, x, [], TokF(t));
    hide Dispatch;
  }

  lemma ActsAtOnce(tco: bool, t: Token, x: World, y: World)
    requires !Unwinding(t) && Dispatch(x, [], t) == State(y, [])
    ensures Acts(tco, t, x, y)
  {
    hide Dispatch, Going, BodyStep;
    StepOfToken(tco, t, x);
    assert BodyRuns(tco, [], BodyStep(tco, [], Body(0, [TokF(t)], x)), 0, Body(0, [], y));
    assert BodyRuns(tco, [], Body(0, [TokF(t)], x), 1, Body(0, [], y));
  }

  lemma ActsThrough(tco: bool, t: Token, x: World, u: Token, v: World, y: World)
    requires !Unwinding(t) && Dispatch(x, [], t) == State(v, [TokF(u)]) && Acts(tco, u, v, y)
    ensures Acts(tco, t, x, y)
  {
    hide Dispatch, Going, BodyStep;
    var k: nat :| BodyRuns(tco, [], Body(0, [TokF(u)], v), k, Body(0, [], y));
    StepOfToken(tco, t, x);
    assert BodyRuns(tco, [], Body(0, [TokF(t)], x), k + 1, Body(0, [], y));
  }

  /** What acts on its own is what a step of the machine leads to, above any stack. */
  lemma ActsIsReached(tco: bool, e: seq<Frame>, t: Token, x: World, y: World)
    requires Base(e) && Acts(tco, t, x, y)
    ensures Reaches(tco, State(x, e + [TokF(t)]), State(y, e))
  {
    var k: nat :| BodyRuns(tco, [], Body(0, [TokF(t)], x), k, Body(0, [], y));
    RunsAbove(tco, e, Body(0, [TokF(t)], x), k, Body(0, [], y));
    assert e + [] == e;
  }

  lemma {:induction false} RunsAbove(tco: bool, e: seq<Frame>, b: Body, k: nat, c: Body)
    requires BodyRuns(tco, [], b, k, c) && Inv(State(b.w, e + b.above))
    ensures Run(tco, State(b.w, e + b.above), k) == State(c.w, e + c.above)
    decreases k
  {
    if k > 0 {
      assert Last(b.above) in b.above;
      LocalStep(tco, b.w, e, b.above);
      StepKeepsInv(tco, State(b.w, e + b.above));
      hide Step, Inv, Local;
      RunsAbove(tco, e, BodyStep(tco, [], b), k - 1, c);
    }
  }

  // ---- procedures ----

  /** A procedure that is dispatched does what its body does. */
  lemma ProcedureActs(tco: bool, p: seq<Token>, x: World, y: World)
    requires Effect(tco, p, x, y)
    ensures Acts(tco, Proc(p), x, y)
  {
    var k: nat :| BodyRuns(tco, p, Body(0, [], x), k, Body(|p|, [], y));
    CallRuns(tco, p, Body(0, [], x), k, Body(|p|, [], y));
    CallEnds(tco, p, y);
    hide BodyRuns, BodyStep;
    BodyRunsTrans(tco, [], InCall(tco, p, Body(0, [], x)), k, InCall(tco, p, Body(|p|, [], y)),
                  if InCall(tco, p, Body(|p|, [], y)).above == [] then 0 else 1, Body(0, [], y));
    CallStarts(tco, p, x, y);
  }

  lemma CallStarts(tco: bool, p: seq<Token>, x: World, y: World)
    requires exists k: nat :: BodyRuns(tco, [], InCall(tco, p, Body(0, [], x)), k, Body(0, [], y))
    ensures Acts(tco, Proc(p), x, y)
  {
    var k: nat :| BodyRuns(tco, [], InCall(tco, p, Body(0, [], x)), k, Body(0, [], y));
    StepOfToken(tco, Proc(p), x);
    assert InCall(tco, p, Body(0, [], x)).above == [Walk(KProc, p, 0)];
    assert BodyRuns(tco, [], Body(0, [TokF(Proc(p))], x), k + 1, Body(0, [], y));
  }

  /** The body p seen from below its frame. */
  function InCall(tco: bool, p: seq<Token>, b: Body): Body {
    Body(0, Called(tco, [], p, b).fs, b.w)
  }

  lemma CallEnds(tco: bool, p: seq<Token>, y: World)
    ensures
      var c := InCall(tco, p, Body(|p|, [], y));
      BodyRuns(tco, [], c, if c.above == [] then 0 else 1, Body(0, [], y))
  {
    hide BodyStep, Going, InCall;
    EndOfCall(tco, p, y);
    FrameEnds(tco, p, y);
    assert BodyRuns(tco, [], Body(0, [], y), 0, Body(0, [], y));
  }

  lemma EndOfCall(tco: bool, p: seq<Token>, y: World)
    ensures
      var c := InCall(tco, p, Body(|p|, [], y));
      c == Body(0, [], y) || c == Body(0, [Walk(KProc, p, |p|)], y)
  {
    var c := InCall(tco, p, Body(|p|, [], y));
    if Dropped(tco, p, Body(|p|, [], y)) {
      assert c.above == [];
    } else {
      assert c.above == [Walk(KProc, p, |p|)];
    }
  }

  lemma FrameEnds(tco: bool, p: seq<Token>, y: World)
    ensures
      var c := Body(0, [Walk(KProc, p, |p|)], y);
      Going([], c) && BodyStep(tco, [], c) == Body(0, [], y)
  {
    assert [] + [Walk(KProc, p, |p|)] == [Walk(KProc, p, |p|)];
    StepOn(tco, y, [], Walk(KProc, p, |p|));
    hide Step;
  }

  lemma CallGoesOn(tco: bool, p: seq<Token>, b: Body)
    requires Going(p, b) && b.pos <= |p|
    ensures Going([], InCall(tco, p, b)) && Inv(Called(tco, [], p, b))
    ensures BodyStep(tco, [], InCall(tco, p, b)) == InCall(tco, p, BodyStep(tco, p, b))
  {
    var f, fs := Walk(KProc, p, b.pos), Called(tco, [], p, b).fs;
    if b.above == [] {
      assert fs == [f];
    } else if Dropped(tco, p, b) {
      assert fs == b.above;
    } else {
      assert fs == [f] + b.above;
      LocalAbove(f, b.above);
    }
    hide Local, Step, Executable;
    CalledStep(tco, [], p, b);
  }

  lemma LocalAbove(f: Frame, a: seq<Frame>)
    requires Local(a)
    ensures Local([f] + a)
  {
    assert Init([f] + a) == [f] + Init(a);
    UnwindLoopAbove([f], Init(a));
    UnwindStoppedAbove([f], Init(a));
    if Last(a) == TokF(Func(Return)) { UnwindReturnAbove([f], Init(a), false); }
  }

  lemma {:induction false} CallRuns(tco: bool, p: seq<Token>, b: Body, k: nat, c: Body)
    requires BodyRuns(tco, p, b, k, c) && b.pos <= |p|
    ensures BodyRuns(tco, [], InCall(tco, p, b), k, InCall(tco, p, c))
    decreases k
  {
    hide BodyStep, Going, InCall;
    if k > 0 {
      CallGoesOn(tco, p, b);
      StaysWithin(tco, p, b);
      CallRuns(tco, p, BodyStep(tco, p, b), k - 1, c);
    }
  }

  // ---- return ----

  /** Running p gets to a `return` under loops of p's own only, with p's frame still there. */
  ghost predicate ReturnsWith(tco: bool, p: seq<Token>, x: World, y: World) {
    exists k: nat, pos: nat, above: seq<Frame> ::
      && pos <= |p| && BodyRuns(tco, p, Body(0, [], x), k, Body(pos, above + [TokF(Func(Return))], y))
      && (forall f :: f in above ==> IsLoop(f))
      && !Dropped(tco, p, Body(pos, above + [TokF(Func(Return))], y))
  }

  /** A `return` ends the procedure and the loops in it, and nothing else. */
  lemma ProcedureReturns(tco: bool, p: seq<Token>, x: World, y: World)
    requires ReturnsWith(tco, p, x, y)
    ensures Acts(tco, Proc(p), x, y)
  {
    var k: nat, pos: nat, above: seq<Frame> :|
      && pos <= |p| && BodyRuns(tco, p, Body(0, [], x), k, Body(pos, above + [TokF(Func(Return))], y))
      && (forall f :: f in above ==> IsLoop(f))
      && !Dropped(tco, p, Body(pos, above + [TokF(Func(Return))], y));
    var c := Body(pos, above + [TokF(Func(Return))], y);
    hide BodyRuns, BodyStep;
    CallRuns(tco, p, Body(0, [], x), k, c);
    StaysInv(tco, p, Body(0, [], x), k, c);
    ReturnEnds(tco, p, pos, above, y);
    BodyRunsTrans(tco, [], InCall(tco, p, Body(0, [], x)), k, InCall(tco, p, c), 1, Body(0, [], y));
    CallStarts(tco, p, x, y);
  }

  lemma ReturnEnds(tco: bool, p: seq<Token>, pos: nat, above: seq<Frame>, y: World)
    requires Inv(State(y, above + [TokF(Func(Return))])) && forall f :: f in above ==> IsLoop(f)
    requires !Dropped(tco, p, Body(pos, above + [TokF(Func(Return))], y))
    ensures BodyRuns(tco, [], InCall(tco, p, Body(pos, above + [TokF(Func(Return))], y)), 1, Body(0, [], y))
  {
    var f, ret := Walk(KProc, p, pos), TokF(Func(Return));
    var c := Body(0, [f] + above + [ret], y);
    assert InCall(tco, p, Body(pos, above + [ret], y)) == c by {
      assert [] + [f] + (above + [ret]) == [f] + above + [ret];
    }
    hide InCall, Dropped, Executable, Step;
    ReturnStep(tco, f, above, y);
    assert Init(c.above) == [f] + above && Last(c.above) == ret;
    assert forall i :: 0 <= i < |above| ==> (above + [ret])[i] == above[i];
    assert BodyStep(tco, [], c) == Body(0, [], y);
    assert BodyRuns(tco, [], BodyStep(tco, [], c), 0, Body(0, [], y));
  }

  lemma ReturnStep(tco: bool, f: Frame, above: seq<Frame>, y: World)
    requires f.Walk? && f.kind.KProc? && forall g :: g in above ==> IsLoop(g)
    ensures UnwindReturn([f] + above, false) == Some([])
    ensures Step(tco, State(y, [f] + above + [TokF(Func(Return))])) == State(y, [])
  {
    hide Exhaust, Operate, Find, Raise, UnwindLoop, UnwindStopped, Fetch;
    ReturnThroughLoops([f], above, false);
    assert Init([f]) == [];
    StepOn(tco, y, [f] + above, TokF(Func(Return)));
  }

  lemma BodyStepInv(tco: bool, p: seq<Token>, b: Body)
    requires Going(p, b)
    ensures Inv(State(BodyStep(tco, p, b).w, BodyStep(tco, p, b).above))
  {
    hide Local, StepTop;
    if b.above != [] { StepKeepsInv(tco, State(b.w, b.above)); }
  }

  lemma {:induction false} StaysInv(tco: bool, p: seq<Token>, b: Body, k: nat, c: Body)
    requires BodyRuns(tco, p, b, k, c) && Inv(State(b.w, b.above))
    ensures Inv(State(c.w, c.above))
    decreases k
  {
    hide Step, Local, Inv;
    if k > 0 {
      BodyStepInv(tco, p, b);
      StaysInv(tco, p, BodyStep(tco, p, b), k - 1, c);
    }
  }

  lemma {:induction false} ReturnThroughLoops(e: seq<Frame>, above: seq<Frame>, passed: bool)
    requires forall f :: f in above ==> IsLoop(f)
    ensures UnwindReturn(e + above, passed) == UnwindReturn(e, passed || above != [])
    decreases |above|
  {
    if above == [] {
      assert e + above == e;
    } else {
      assert Init(e + above) == e + Init(above) && Last(e + above) == Last(above);
      ReturnThroughLoops(e, Init(above), true);
    }
  }

  // ---- names ----

  /** A name does what its value in the topmost dictionary that binds it does; a value that is
      not executable is pushed. */
  lemma NameActs(tco: bool, n: Name, i: nat, x: World, y: World)
    requires Topmost(x.below + [x.current], n, i)
    requires
      var v := (x.below + [x.current])[i][n];
      if Executable(v) then Acts(tco, v, x, y) else y == Push(x, v)
    ensures Acts(tco, Nam(n), x, y)
  {
    hide Acts;
    FindIsTopmost(x, n);
    var v := (x.below + [x.current])[i][n];
    assert Find(x, n) == Some(v);
    hide Find, Topmost;
    if Executable(v) {
      assert [] + [TokF(v)] == [TokF(v)];
      ActsThrough(tco, Nam(n), x, v, x, y);
    } else {
      ActsAtOnce(tco, Nam(n), x, y);
    }
  }

  /** One step on a name, above any stack. */
  lemma NameStep(tco: bool, e: seq<Frame>, n: Name, i: nat, x: World)
    requires Topmost(x.below + [x.current], n, i)
    ensures
      var v := (x.below + [x.current])[i][n];
      Step(tco, State(x, e + [TokF(Nam(n))]))
      == if Executable(v) then State(x, e + [TokF(v)]) else State(x.(ost := x.ost + [v]), e)
  {
    FindIsTopmost(x, n);
    assert Find(x, n) == Some((x.below + [x.current])[i][n]);
    hide Find, Raise, Executable, Topmost;
    StepOn(tco, x, e, TokF(Nam(n)));
  }

  lemma FoundNameActs(tco: bool, n: Name, v: Token, x: World, y: World)
    requires Find(x, n) == Some(v) && Executable(v) && Acts(tco, v, x, y)
    ensures Acts(tco, Nam(n), x, y)
  {
    hide Acts;
    assert [] + [TokF(v)] == [TokF(v)];
    ActsThrough(tco, Nam(n), x, v, x, y);
  }

  /** A name that no dictionary binds raises an error, and the name stays behind. */
  lemma UnboundNameFails(tco: bool, e: seq<Frame>, n: Name, x: World)
    requires forall d :: d in x.below + [x.current] ==> n !in d
    ensures Step(tco, State(x, e + [TokF(Nam(n))]))
            == State(Raise(x, INTERPRETER, "UndefinedName"), e + [TokF(Nam(n)), STOP])
  {
    FindIsTopmost(x, n);
    hide Find, Raise;
    StepOn(tco, x, e, TokF(Nam(n)));
  }

  // ---- data ----

  /** Everything that is not a name, a function or a procedure goes on the operand stack; a
      literal procedure as a procedure. */
  lemma DataActs(tco: bool, t: Token, x: World)
    requires !t.Nam? && !t.Func? && !t.Proc?
    ensures Acts(tco, t, x, x.(ost := x.ost + [if t.LitProc? then Proc(t.items) else t]))
  {
    hide Acts;
    ActsAtOnce(tco, t, x, x.(ost := x.ost + [if t.LitProc? then Proc(t.items) else t]));
  }

  // ---- functions ----

  lemma FunctionActs(tco: bool, op: Op, x: World, y: World)
    requires !Unwinds(op) && Operate(op, x) == Out(y, [])
    ensures Acts(tco, Func(op), x, y)
  {
    hide Acts, Operate;
    ActsAtOnce(tco, Func(op), x, y);
  }

  lemma FunctionActsThrough(tco: bool, op: Op, x: World, u: Token, v: World, y: World)
    requires !Unwinds(op) && Operate(op, x) == Out(v, [TokF(u)]) && Acts(tco, u, v, y)
    ensures Acts(tco, Func(op), x, y)
  {
    hide Acts, Operate;
    assert [] + [TokF(u)] == [TokF(u)];
    ActsThrough(tco, Func(op), x, u, v, y);
  }

  lemma PopActs(tco: bool, a: Token, x: World)
    ensures Acts(tco, Func(Pop), x.(ost := x.ost + [a]), x)
  {
    hide Acts;
    assert Drop(PushAll(x, [a]), 1) == x;
    FunctionActs(tco, Pop, x.(ost := x.ost + [a]), x);
  }

  lemma DupActs(tco: bool, a: Token, x: World)
    ensures Acts(tco, Func(Dup), x.(ost := x.ost + [a]), x.(ost := x.ost + [a, a]))
  {
    hide Acts;
    assert x.ost + [a] + [a] == x.ost + [a, a];
    FunctionActs(tco, Dup, x.(ost := x.ost + [a]), x.(ost := x.ost + [a, a]));
  }

  lemma ExchActs(tco: bool, a: Token, b: Token, x: World)
    ensures Acts(tco, Func(Exch), x.(ost := x.ost + [a, b]), x.(ost := x.ost + [b, a]))
  {
    hide Acts;
    assert (x.ost + [a, b])[..|x.ost|] == x.ost;
    FunctionActs(tco, Exch, x.(ost := x.ost + [a, b]), x.(ost := x.ost + [b, a]));
  }

  /** `add` and `sub` give the mathematical result if it fits a word. */
  lemma ArithmeticActs(tco: bool, op: Op, a: int, b: int, x: World)
    requires op.Add? || op.Sub?
    ensures
      var r := if op.Add? then a + b else a - b;
      Fits64(r) ==> Acts(tco, Func(op), x.(ost := x.ost + [Int(a), Int(b)]), x.(ost := x.ost + [Int(r)]))
  {
    hide Acts;
    var r := if op.Add? then a + b else a - b;
    assert (x.ost + [Int(a), Int(b)])[..|x.ost|] == x.ost;
    if Fits64(r) {
      FunctionActs(tco, op, x.(ost := x.ost + [Int(a), Int(b)]), x.(ost := x.ost + [Int(r)]));
    }
  }

  /** If it does not, the operands stay where they are, with the function's name above them. */
  lemma ArithmeticOverflows(tco: bool, op: Op, a: int, b: int, x: World, e: seq<Frame>)
    requires op.Add? || op.Sub?
    ensures
      var r, w := if op.Add? then a + b else a - b, x.(ost := x.ost + [Int(a), Int(b)]);
      !Fits64(r) ==> Step(tco, State(w, e + [TokF(Func(op))]))
                     == State(Raise(w, OpName(op), "RangeCheck"), e + [STOP])
  {
    hide Raise;
    StepOn(tco, x.(ost := x.ost + [Int(a), Int(b)]), e, TokF(Func(op)));
  }

  /** `/n v def` binds n to v and leaves every other name as it was. */
  lemma DefActs(tco: bool, n: Name, v: Token, x: World)
    ensures
      var y := x.(current := x.current[n := v]);
      && Acts(tco, Func(Def), x.(ost := x.ost + [Lit(n), v]), y)
      && Find(y, n) == Some(v)
      && forall m :: m != n ==> Find(y, m) == Find(x, m)
  {
    hide Acts;
    var y := x.(current := x.current[n := v]);
    assert (x.ost + [Lit(n), v])[..|x.ost|] == x.ost;
    FunctionActs(tco, Def, x.(ost := x.ost + [Lit(n), v]), y);
  }

  lemma ExecActs(tco: bool, t: Token, x: World, y: World)
    requires Acts(tco, t, x, y)
    ensures Acts(tco, Func(Exec), x.(ost := x.ost + [t]), y)
  {
    hide Acts;
    assert Drop(PushAll(x, [t]), 1) == x;
    FunctionActsThrough(tco, Exec, x.(ost := x.ost + [t]), t, x, y);
  }

  /** `b t if` does what t does if b is true, and otherwise nothing. */
  lemma IfActs(tco: bool, b: bool, t: Token, x: World, y: World)
    requires if b then Acts(tco, t, x, y) else y == x
    ensures Acts(tco, Func(If), x.(ost := x.ost + [Bool(b), t]), y)
  {
    hide Acts;
    var w := x.(ost := x.ost + [Bool(b), t]);
    assert Drop(w, 2) == x;
    if b { FunctionActsThrough(tco, If, w, t, x, y); } else { FunctionActs(tco, If, w, x); }
  }

  /** `b t u ifelse` does what t does if b is true, and otherwise what u does. */
  lemma IfelseActs(tco: bool, b: bool, t: Token, u: Token, x: World, y: World)
    requires if b then Acts(tco, t, x, y) else Acts(tco, u, x, y)
    ensures Acts(tco, Func(Ifelse), x.(ost := x.ost + [Bool(b), t, u]), y)
  {
    hide Acts;
    var w := x.(ost := x.ost + [Bool(b), t, u]);
    assert Drop(w, 3) == x;
    FunctionActsThrough(tco, Ifelse, w, if b then t else u, x, y);
  }

  /** Above any stack: `b {p} {q} ifelse` runs p or q, and `b {p} if` p or nothing. */
  lemma BranchesRun(tco: bool, e: seq<Frame>, b: bool, p: seq<Token>, q: seq<Token>, x: World, y: World)
    requires Base(e)
    ensures Effect(tco, if b then p else q, x, y) ==>
      Reaches(tco, State(x.(ost := x.ost + [Bool(b), Proc(p), Proc(q)]), e + [TokF(Func(Ifelse))]), State(y, e))
    ensures (if b then Effect(tco, p, x, y) else y == x) ==>
      Reaches(tco, State(x.(ost := x.ost + [Bool(b), Proc(p)]), e + [TokF(Func(If))]), State(y, e))
  {
    hide Acts, Effect, Run;
    if Effect(tco, if b then p else q, x, y) {
      ProcedureActs(tco, if b then p else q, x, y);
      IfelseActs(tco, b, Proc(p), Proc(q), x, y);
      ActsIsReached(tco, e, Func(Ifelse), x.(ost := x.ost + [Bool(b), Proc(p), Proc(q)]), y);
    }
    if if b then Effect(tco, p, x, y) else y == x {
      if b { ProcedureActs(tco, p, x, y); }
      IfActs(tco, b, Proc(p), x, y);
      ActsIsReached(tco, e, Func(If), x.(ost := x.ost + [Bool(b), Proc(p)]), y);
    }
  }

  // ---- errors ----

  /** An error that nothing has reported yet is recorded with the name of the command, which
      also goes on the operand stack. One that comes before the last has been handled is
      not: it takes the flag back and keeps the names. */
  lemma RaiseRecords(w: World, cmd: Name, e: Name)
    ensures
      var v := Raise(w, cmd, e);
      && v.below == w.below && v.current == w.current
      && (!w.err.newerror ==> v.ost == w.ost + [Lit(cmd)] && v.err.newerror
                              && v.err.errorname == e && v.err.commandname == cmd)
      && (w.err.newerror ==> v.ost == w.ost + [Lit("BadErrorHandler")] && !v.err.newerror
                             && v.err.errorname == w.err.errorname && v.err.commandname == w.err.commandname)
  {}

  /** Too few operands are reported before anything else, and stay where they are. */
  lemma TooFewOperands(tco: bool, e: seq<Frame>, op: Op, w: World)
    requires !Unwinds(op) && |w.ost| < Arity(op)
    ensures Step(tco, State(w, e + [TokF(Func(op))]))
            == State(Raise(w, OpName(op), "StackUnderflow"), e + [STOP])
  {
    hide Raise, OpName;
    StepOn(tco, w, e, TokF(Func(op)));
  }

  /** So are operands of a wrong type. */
  lemma WrongOperands(tco: bool, e: seq<Frame>, op: Op, w: World)
    requires |w.ost| >= Arity(op)
    requires
      || (op.If? && !w.ost[|w.ost| - 2].Bool?)
      || (op.Ifelse? && !w.ost[|w.ost| - 3].Bool?)
      || (op.Def? && !w.ost[|w.ost| - 2].Lit?)
      || ((op.Add? || op.Sub?) && !(w.ost[|w.ost| - 1].Int? && w.ost[|w.ost| - 2].Int?))
    ensures Step(tco, State(w, e + [TokF(Func(op))]))
            == State(Raise(w, OpName(op), if op.Add? || op.Sub? then "ArgumentType" else "TypeMismatch"), e + [STOP])
  {
    hide Raise, OpName;
    StepOn(tco, w, e, TokF(Func(op)));
  }

  // ---- a program ----

  /** `/add {pop} def 1 2 add` leaves 1, whatever `add` was bound to before. */
  lemma RedefinedNameRuns(tco: bool, x: World)
    requires Find(x, "def") == Some(Func(Def)) && Find(x, "pop") == Some(Func(Pop))
    ensures
      var p := [Lit("add"), LitProc([Nam("pop")]), Nam("def"), Int(1), Int(2), Nam("add")];
      Effect(tco, p, x, x.(ost := x.ost + [Int(1)], current := x.current["add" := Proc([Nam("pop")])]))
  {
    hide Effect, Acts, Find;
    var q := Proc([Nam("pop")]);
    var y := x.(current := x.current["add" := q]);
    DefinitionRuns(tco, "add", [Nam("pop")], x);
    var z := y.(ost := y.ost + [Int(1)]);
    var z' := y.(ost := y.ost + [Int(1)] + [Int(2)]);
    DataActs(tco, Int(1), y);
    DataActs(tco, Int(2), z);
    DefActs(tco, "add", q, x);
    SameDictionaries(y, z', "add");
    SameDictionaries(y, z', "pop");
    PopActs(tco, Int(2), z);
    FoundNameActs(tco, "pop", Func(Pop), z', z);
    EffectOfToken(tco, Nam("pop"), z', z);
    ProcedureActs(tco, [Nam("pop")], z', z);
    FoundNameActs(tco, "add", q, z', z);
    var d := [Lit("add"), LitProc([Nam("pop")]), Nam("def")];
    EffectOfNext(tco, d, Int(1), x, y, z);
    EffectOfNext(tco, d + [Int(1)], Int(2), x, z, z');
    EffectOfNext(tco, d + [Int(1)] + [Int(2)], Nam("add"), x, z', z);
    assert d + [Int(1)] + [Int(2)] + [Nam("add")]
        == [Lit("add"), LitProc([Nam("pop")]), Nam("def"), Int(1), Int(2), Nam("add")];
  }

  lemma SameDictionaries(w: World, v: World, n: Name)
    requires v.below == w.below && v.current == w.current
    ensures Find(v, n) == Find(w, n)
  {}

  /** `/n {p} def` binds n to the procedure. */
  lemma DefinitionRuns(tco: bool, n: Name, p: seq<Token>, x: World)
    requires Find(x, "def") == Some(Func(Def))
    ensures Effect(tco, [Lit(n), LitProc(p), Nam("def")], x, x.(current := x.current[n := Proc(p)]))
  {
    hide Effect, Acts, Find;
    var y := x.(ost := x.ost + [Lit(n)]);
    var z := x.(ost := x.ost + [Lit(n)] + [Proc(p)]);
    DataActs(tco, Lit(n), x);
    DataActs(tco, LitProc(p), y);
    DefActs(tco, n, Proc(p), x);
    assert x.ost + [Lit(n)] + [Proc(p)] == x.ost + [Lit(n), Proc(p)];
    SameDictionaries(x, z, "def");
    FoundNameActs(tco, "def", Func(Def), z, x.(current := x.current[n := Proc(p)]));
    EffectOfToken(tco, Lit(n), x, y);
    EffectOfNext(tco, [Lit(n)], LitProc(p), x, y, z);
    EffectOfNext(tco, [Lit(n)] + [LitProc(p)], Nam("def"), x, z, x.(current := x.current[n := Proc(p)]));
    assert [Lit(n)] + [LitProc(p)] + [Nam("def")] == [Lit(n), LitProc(p), Nam("def")];
  }
}
