/** Every loop operator runs its body as often as it should, and on the right operands. */
module Loops {
  import opened Tokens
  import opened Machine
  import opened Runs
  import opened Locality

  // ---- one run of a body ----

  /** A body walk seen from its own frame: the position, the frames above, the world. */
  datatype Body = Body(pos: nat, above: seq<Frame>, w: World)

  /** The body has not ended, and its next step stays above its frame. */
  ghost predicate Going(p: seq<Token>, b: Body) {
    if b.above == [] then b.pos < |p| else Local(b.above) && Inv(State(b.w, b.above))
  }

  ghost function BodyStep(tco: bool, p: seq<Token>, b: Body): Body
    requires Going(p, b)
  {
    if b.above == [] then Body(b.pos + 1, [TokF(p[b.pos])], b.w)
    else
      var s := Step(tco, State(b.w, b.above));
      Body(b.pos, s.fs, s.w)
  }

  ghost predicate BodyRuns(tco: bool, p: seq<Token>, b: Body, k: nat, c: Body)
    decreases k
  {
    if k == 0 then b == c else Going(p, b) && BodyRuns(tco, p, BodyStep(tco, p, b), k - 1, c)
  }

  /** Running the body p once takes the world x to the world y. Tail-call elimination
      matters only inside the procedures that the body calls. */
  ghost predicate Effect(tco: bool, p: seq<Token>, x: World, y: World) {
    exists k: nat :: BodyRuns(tco, p, Body(0, [], x), k, Body(|p|, [], y))
  }

  /** Running the body p gets to an `exit` that no loop of its own catches. */
  ghost predicate ExitsWith(tco: bool, p: seq<Token>, x: World, y: World) {
    exists k: nat, pos: nat, above: seq<Frame> ::
      && BodyRuns(tco, p, Body(0, [], x), k, Body(pos, above + [TokF(Func(Exit))], y))
      && UnwindLoop(above).None?
  }

  /** The machine state of a body walk on top of e. */
  function On(e: seq<Frame>, kd: Kind, p: seq<Token>, b: Body): State {
    State(b.w, e + [Walk(kd, p, b.pos)] + b.above)
  }

  lemma BodyStepOn(tco: bool, e: seq<Frame>, kd: Kind, p: seq<Token>, b: Body)
    requires WellFormedKind(kd) && Going(p, b) && (tco ==> !kd.KProc?)
    ensures Step(tco, On(e, kd, p, b)) == On(e, kd, p, BodyStep(tco, p, b))
  {
    var f := Walk(kd, p, b.pos);
    if b.above == [] {
      assert On(e, kd, p, b).fs == e + [f];
      StepOn(tco, b.w, e, f);
      assert e + [f.(pos := b.pos + 1), TokF(p[b.pos])] == e + [f.(pos := b.pos + 1)] + [TokF(p[b.pos])];
    } else {
      assert Last(b.above) in b.above;
      LocalStep(tco, b.w, e + [f], b.above);
    }
  }

  /** A body does the same in every frame and above every stack. */
  lemma {:induction false} BodyRunsOn(tco: bool, e: seq<Frame>, kd: Kind, p: seq<Token>, b: Body, k: nat, c: Body)
    requires WellFormedKind(kd) && BodyRuns(tco, p, b, k, c) && Inv(On(e, kd, p, b))
    requires tco ==> !kd.KProc?
    ensures Run(tco, On(e, kd, p, b), k) == On(e, kd, p, c)
    decreases k
  {
    hide Step, BodyStep, On, Inv, WellFormedKind, Local, Going;
    if k > 0 {
      BodyStepOn(tco, e, kd, p, b);
      StepKeepsInv(tco, On(e, kd, p, b));
      BodyRunsOn(tco, e, kd, p, BodyStep(tco, p, b), k - 1, c);
    }
  }

  /** Frame and stack of a loop at the start of a round. */
  ghost predicate Placed(e: seq<Frame>, kd: Kind) {
    Base(e) && WellFormedKind(kd)
  }

  lemma EffectOn(tco: bool, e: seq<Frame>, kd: Kind, p: seq<Token>, x: World, y: World)
    requires Placed(e, kd) && Effect(tco, p, x, y) && (tco ==> !kd.KProc?)
    ensures Reaches(tco, State(x, e + [Walk(kd, p, 0)]), State(y, e + [Walk(kd, p, |p|)]))
  {
    var k: nat :| BodyRuns(tco, p, Body(0, [], x), k, Body(|p|, [], y));
    assert On(e, kd, p, Body(0, [], x)) == State(x, e + [Walk(kd, p, 0)]);
    assert On(e, kd, p, Body(|p|, [], y)) == State(y, e + [Walk(kd, p, |p|)]);
    BodyRunsOn(tco, e, kd, p, Body(0, [], x), k, Body(|p|, [], y));
  }

  lemma EffectOfNothing(tco: bool, x: World)
    ensures Effect(tco, [], x, x)
  {
    assert BodyRuns(tco, [], Body(0, [], x), 0, Body(0, [], x));
  }

  // ---- the body of a procedure ----

  /** Tail-call elimination has taken the procedure's frame away. */
  predicate Dropped(tco: bool, p: seq<Token>, b: Body) {
    tco && p != [] && b.pos == |p| && Executable(Last(p))
  }

  /** The machine state of a procedure's body on e. */
  function Called(tco: bool, e: seq<Frame>, p: seq<Token>, b: Body): State {
    if Dropped(tco, p, b) then State(b.w, e + b.above) else On(e, KProc, p, b)
  }

  lemma CalledStep(tco: bool, e: seq<Frame>, p: seq<Token>, b: Body)
    requires Base(e) && Going(p, b) && b.pos <= |p| && Inv(Called(tco, e, p, b))
    ensures Step(tco, Called(tco, e, p, b)) == Called(tco, e, p, BodyStep(tco, p, b))
  {
    var f := Walk(KProc, p, b.pos);
    if b.above == [] {
      assert On(e, KProc, p, b).fs == e + [f];
      StepOn(tco, b.w, e, f);
      assert e + [f.(pos := b.pos + 1), TokF(p[b.pos])] == e + [f.(pos := b.pos + 1)] + [TokF(p[b.pos])];
    } else {
      assert Last(b.above) in b.above;
      hide Step, Executable;
      LocalStep(tco, b.w, if Dropped(tco, p, b) then e else e + [f], b.above);
    }
  }

  lemma {:induction false} CalledRuns(tco: bool, e: seq<Frame>, p: seq<Token>, b: Body, k: nat, c: Body)
    requires Base(e) && BodyRuns(tco, p, b, k, c) && b.pos <= |p| && Inv(Called(tco, e, p, b))
    ensures Run(tco, Called(tco, e, p, b), k) == Called(tco, e, p, c)
    decreases k
  {
    if k > 0 {
      CalledStep(tco, e, p, b);
      StepKeepsInv(tco, Called(tco, e, p, b));
      StaysWithin(tco, p, b);
      hide Step, BodyStep, Called, Inv, Local;
      CalledRuns(tco, e, p, BodyStep(tco, p, b), k - 1, c);
    }
  }

  lemma StaysWithin(tco: bool, p: seq<Token>, b: Body)
    requires Going(p, b) && b.pos <= |p|
    ensures BodyStep(tco, p, b).pos <= |p|
  {
    hide Step, Local, Inv;
  }

  /** The effect of a body is what `exec` of the procedure does, with all frames kept and with
      frames dropped. */
  lemma EffectIsExec(tco: bool, e: seq<Frame>, p: seq<Token>, x: World, y: World)
    requires Base(e) && Effect(tco, p, x, y)
    ensures Reaches(tco, State(Push(x, Proc(p)), e + [TokF(Func(Exec))]), State(y, e))
  {
    hide Effect;
    var w := Push(x, Proc(p));
    var s0, s1 := State(w, e + [TokF(Func(Exec))]), State(x, e + [TokF(Proc(p))]);
    StepOn(tco, w, e, TokF(Func(Exec)));
    assert Drop(w, 1) == x;
    assert Step(tco, s0) == s1;
    ReachesStep(tco, s0);
    ProcedureRuns(tco, e, p, x, y);
    ReachesTrans(tco, s0, s1, State(y, e));
  }

  lemma ProcedureRuns(tco: bool, e: seq<Frame>, p: seq<Token>, x: World, y: World)
    requires Base(e) && Effect(tco, p, x, y)
    ensures Reaches(tco, State(x, e + [TokF(Proc(p))]), State(y, e))
  {
    var s1, s2 := State(x, e + [TokF(Proc(p))]), State(x, e + [Walk(KProc, p, 0)]);
    StepOn(tco, x, e, TokF(Proc(p)));
    assert Step(tco, s1) == s2;
    ReachesStep(tco, s1);
    hide Step;
    BodyIsCalled(tco, e, p, x, y);
    ReachesTrans(tco, s1, s2, State(y, e));
  }

  lemma BodyIsCalled(tco: bool, e: seq<Frame>, p: seq<Token>, x: World, y: World)
    requires Base(e) && Effect(tco, p, x, y)
    ensures Reaches(tco, State(x, e + [Walk(KProc, p, 0)]), State(y, e))
  {
    var k: nat :| BodyRuns(tco, p, Body(0, [], x), k, Body(|p|, [], y));
    var s, t := State(x, e + [Walk(KProc, p, 0)]), Called(tco, e, p, Body(|p|, [], y));
    assert Called(tco, e, p, Body(0, [], x)) == s;
    CalledRuns(tco, e, p, Body(0, [], x), k, Body(|p|, [], y));
    assert Reaches(tco, s, t);
    assert e + [] == e;
    if !Dropped(tco, p, Body(|p|, [], y)) {
      assert t == State(y, e + [Walk(KProc, p, |p|)]);
      StepOn(tco, y, e, Walk(KProc, p, |p|));
      ReachesStep(tco, t);
      ReachesTrans(tco, s, t, State(y, e));
    }
  }

  // ---- exit ----

  /** An `exit` in the body takes the loop's whole frame and nothing else. */
  lemma ExitLeavesLoop(tco: bool, e: seq<Frame>, kd: Kind, p: seq<Token>, x: World, y: World)
    requires Placed(e, kd) && !kd.KProc? && ExitsWith(tco, p, x, y)
    ensures Reaches(tco, State(x, e + [Walk(kd, p, 0)]), State(y, e))
  {
    var k: nat, pos: nat, above: seq<Frame> :|
      && BodyRuns(tco, p, Body(0, [], x), k, Body(pos, above + [TokF(Func(Exit))], y))
      && UnwindLoop(above).None?;
    var b, c := Body(0, [], x), Body(pos, above + [TokF(Func(Exit))], y);
    assert On(e, kd, p, b) == State(x, e + [Walk(kd, p, 0)]);
    BodyRunsOn(tco, e, kd, p, b, k, c);
    assert On(e, kd, p, c).fs == e + [Walk(kd, p, pos)] + above + [TokF(Func(Exit))];
    ExitStep(tco, e, Walk(kd, p, pos), above, y);
    RunLast(tco, On(e, kd, p, b), k);
  }

  lemma ExitStep(tco: bool, e: seq<Frame>, f: Frame, above: seq<Frame>, y: World)
    requires IsLoop(f) && UnwindLoop(above).None?
    ensures Step(tco, State(y, e + [f] + above + [TokF(Func(Exit))])) == State(y, e)
  {
    hide Exhaust, Operate, Find, Raise, UnwindReturn, UnwindStopped, Fetch;
    UnwindLoopAbove(e + [f], above);
    assert Init(e + [f]) == e && Last(e + [f]) == f;
    assert UnwindLoop(e + [f]) == Some(e);
    hide UnwindLoop;
    StepOn(tco, y, e + [f] + above, TokF(Func(Exit)));
  }

  // ---- rounds ----

  /** The rounds of a loop: ks are the frame's kinds and xs the worlds at the ends of the
      body, before the first round and after each; zs are the worlds the body starts in. */
  ghost predicate Rounds(tco: bool, p: seq<Token>, ks: seq<Kind>, xs: seq<World>, zs: seq<World>) {
    && |ks| == |xs| == |zs| + 1
    && (forall i :: 0 <= i < |ks| ==> WellFormedKind(ks[i]) && !ks[i].KProc?)
    && (forall i :: 0 <= i < |zs| ==>
          && Exhaust(Walk(ks[i], p, |p|), xs[i]) == Out(zs[i], [Walk(ks[i + 1], p, 0)])
          && Effect(tco, p, zs[i], xs[i + 1]))
  }

  lemma OneRound(tco: bool, e: seq<Frame>, p: seq<Token>, k: Kind, x: World, z: World, k': Kind, y: World)
    requires Placed(e, k) && WellFormedKind(k') && !k'.KProc?
    requires Exhaust(Walk(k, p, |p|), x) == Out(z, [Walk(k', p, 0)]) && Effect(tco, p, z, y)
    ensures Reaches(tco, State(x, e + [Walk(k, p, |p|)]), State(y, e + [Walk(k', p, |p|)]))
  {
    StepOn(tco, x, e, Walk(k, p, |p|));
    ReachesStep(tco, State(x, e + [Walk(k, p, |p|)]));
    EffectOn(tco, e, k', p, z, y);
    ReachesTrans(tco, State(x, e + [Walk(k, p, |p|)]), State(z, e + [Walk(k', p, 0)]),
                 State(y, e + [Walk(k', p, |p|)]));
  }

  lemma {:induction false} RoundsRun(tco: bool, e: seq<Frame>, p: seq<Token>, ks: seq<Kind>, xs: seq<World>,
                                     zs: seq<World>)
    requires Base(e) && Rounds(tco, p, ks, xs, zs)
    ensures Reaches(tco, State(xs[0], e + [Walk(ks[0], p, |p|)]),
                    State(Last(xs), e + [Walk(Last(ks), p, |p|)]))
    decreases |zs|
  {
    if zs == [] {
      var s := State(xs[0], e + [Walk(ks[0], p, |p|)]);
      assert Run(tco, s, 0) == s;
    } else {
      OneRound(tco, e, p, ks[0], xs[0], zs[0], ks[1], xs[1]);
      RoundsRun(tco, e, p, ks[1..], xs[1..], zs[1..]);
      ReachesTrans(tco, State(xs[0], e + [Walk(ks[0], p, |p|)]), State(xs[1], e + [Walk(ks[1], p, |p|)]),
                   State(Last(xs), e + [Walk(Last(ks), p, |p|)]));
    }
  }

  /** A loop whose rounds are given and whose last body end takes the frame away. */
  lemma LoopRuns(tco: bool, e: seq<Frame>, p: seq<Token>, ks: seq<Kind>, xs: seq<World>, zs: seq<World>, y: World)
    requires Base(e) && Rounds(tco, p, ks, xs, zs)
    requires Exhaust(Walk(Last(ks), p, |p|), Last(xs)) == Out(y, [])
    ensures Reaches(tco, State(xs[0], e + [Walk(ks[0], p, |p|)]), State(y, e))
  {
    var f := Walk(Last(ks), p, |p|);
    RoundsRun(tco, e, p, ks, xs, zs);
    StepOn(tco, Last(xs), e, f);
    assert e + [] == e;
    ReachesStep(tco, State(Last(xs), e + [f]));
    ReachesTrans(tco, State(xs[0], e + [Walk(ks[0], p, |p|)]), State(Last(xs), e + [f]), State(y, e));
  }

  lemma BuilderStep(tco: bool, e: seq<Frame>, op: Op, w: World, x: World, f: Frame)
    requires Base(e) && !Unwinds(op) && Operate(op, w) == Out(x, [f])
    ensures Reaches(tco, State(w, e + [TokF(Func(op))]), State(x, e + [f]))
  {
    hide Operate;
    StepOn(tco, w, e, TokF(Func(op)));
    ReachesStep(tco, State(w, e + [TokF(Func(op))]));
  }

  /** The same, from the operator that builds the frame. */
  lemma OperatorRuns(tco: bool, e: seq<Frame>, op: Op, w: World, p: seq<Token>,
                     ks: seq<Kind>, xs: seq<World>, zs: seq<World>, y: World)
    requires Base(e) && !Unwinds(op) && Rounds(tco, p, ks, xs, zs)
    requires Operate(op, w) == Out(xs[0], [Walk(ks[0], p, |p|)])
    requires Exhaust(Walk(Last(ks), p, |p|), Last(xs)) == Out(y, [])
    ensures Reaches(tco, State(w, e + [TokF(Func(op))]), State(y, e))
  {
    BuilderStep(tco, e, op, w, xs[0], Walk(ks[0], p, |p|));
    LoopRuns(tco, e, p, ks, xs, zs, y);
    ReachesTrans(tco, State(w, e + [TokF(Func(op))]), State(xs[0], e + [Walk(ks[0], p, |p|)]), State(y, e));
  }

  // ---- repeat ----

  /** `n p repeat` is max(n, 0) runs of p, one after the other. */
  lemma RepeatIterates(tco: bool, e: seq<Frame>, n: int, p: seq<Token>, xs: seq<World>)
    requires Base(e) && |xs| == (if n > 0 then n else 0) + 1
    requires forall i :: 0 <= i < |xs| - 1 ==> Effect(tco, p, xs[i], xs[i + 1])
    ensures Reaches(tco, State(PushAll(xs[0], [Int(n), Proc(p)]), e + [TokF(Func(Repeat))]),
                    State(Last(xs), e))
  {
    var m, w := |xs| - 1, PushAll(xs[0], [Int(n), Proc(p)]);
    var ks := seq(m + 1, i requires 0 <= i <= m => KRepeat(n - i));
    assert Drop(w, 2) == xs[0];
    OperatorRuns(tco, e, Repeat, w, p, ks, xs, xs[..m], Last(xs));
  }

  // ---- for ----

  /** The counter values of `a s b for`. */
  function ForItems(a: int, s: int, b: int): seq<int>
    decreases if s > 0 then b - a else a - b
  {
    if (s > 0 && a <= b) || (s < 0 && a >= b) then [a] + ForItems(a + s, s, b) else []
  }

  lemma {:induction false} ForItemsAt(a: int, s: int, b: int, i: nat)
    requires i < |ForItems(a, s, b)|
    ensures ForItems(a, s, b)[i] == a + i * s
    ensures if s > 0 then a + i * s <= b else a + i * s >= b
    decreases i
  {
    if i > 0 {
      ForItemsAt(a + s, s, b, i - 1);
      assert (a + s) + (i - 1) * s == a + i * s by { OneMore(i - 1, s); }
    }
  }

  lemma OneMore(i: int, s: int)
    ensures (i + 1) * s == i * s + s
  {
  }

  lemma {:induction false} ForItemsEnd(a: int, s: int, b: int)
    requires s != 0
    ensures
      var n := |ForItems(a, s, b)|;
      if s > 0 then a + n * s > b else a + n * s < b
    decreases if s > 0 then b - a else a - b
  {
    if (s > 0 && a <= b) || (s < 0 && a >= b) {
      ForItemsEnd(a + s, s, b);
      OneMore(|ForItems(a + s, s, b)|, s);
    }
  }

  /** The counter after the last round; it is advanced once more than is needed. */
  function Beyond(a: int, s: int, b: int): int {
    a + |ForItems(a, s, b)| * s
  }

  /** The counter is a 64-bit word, and the last value is the one that might not fit. */
  predicate CountersFit(a: int, s: int, b: int) {
    Fits64(a) && Fits64(Beyond(a, s, b))
  }

  /** No counter value leaves the words exactly if the last one does not. */
  lemma CountersBetween(a: int, s: int, b: int)
    requires Fits64(a)
    ensures CountersFit(a, s, b) <==> forall i: nat :: i <= |ForItems(a, s, b)| ==> Fits64(a + i * s)
  {
    var n := |ForItems(a, s, b)|;
    if CountersFit(a, s, b) {
      forall i: nat | i <= n ensures Fits64(a + i * s) {
        Between(a, s, i, n);
      }
    }
  }

  lemma Between(a: int, s: int, i: nat, n: nat)
    requires i <= n
    ensures if s >= 0 then a <= a + i * s <= a + n * s else a + n * s <= a + i * s <= a
  {
    if s >= 0 { Monotone(s, i, n); } else { Monotone(-s, i, n); }
  }

  lemma Monotone(s: nat, i: nat, n: nat)
    requires i <= n
    ensures 0 <= i * s <= n * s
  {
    assert n * s == i * s + (n - i) * s;
  }

  /** It is enough that limit + step fits. */
  lemma LimitFits(a: int, s: int, b: int)
    requires Fits64(a) && Fits64(b) && Fits64(b + s)
    ensures CountersFit(a, s, b)
  {
    var n := |ForItems(a, s, b)|;
    if n > 0 {
      ForItemsAt(a, s, b, n - 1);
      OneMore(n - 1, s);
      Between(a, s, n - 1, n);
    } else {
      assert a + n * s == a;
    }
  }

  /** The frame after i rounds. */
  function ForKind(a: int, s: int, b: int, i: nat): Kind {
    KFor(s, b, a + i * s)
  }

  /** The rounds of `for`, and that they end. */
  lemma ForRound(a: int, s: int, b: int, p: seq<Token>, i: nat, x: World)
    requires i <= |ForItems(a, s, b)| && CountersFit(a, s, b)
    ensures
      Exhaust(Walk(ForKind(a, s, b, i), p, |p|), x)
      == if i == |ForItems(a, s, b)| then Out(x, [])
         else Out(Push(x, Int(ForItems(a, s, b)[i])), [Walk(ForKind(a, s, b, i + 1), p, 0)])
  {
    OneMore(i, s);
    if i < |ForItems(a, s, b)| {
      ForItemsAt(a, s, b, i);
      Between(a, s, i + 1, |ForItems(a, s, b)|);
    } else if s != 0 {
      ForItemsEnd(a, s, b);
    }
    hide ForItems;
  }

  /** The value of the counter after the last round is the first one beyond the limit. */
  lemma LastCounter(a: int, s: int, b: int)
    ensures
      var n, t := |ForItems(a, s, b)|, Beyond(a, s, b);
      && (s > 0 ==> t > b) && (s < 0 ==> t < b) && (s == 0 ==> n == 0)
      && (if n == 0 then t == a else if s > 0 then a <= t - s <= b else b <= t - s <= a)
  {
    var n := |ForItems(a, s, b)|;
    if s != 0 { ForItemsEnd(a, s, b); }
    if n > 0 {
      ForItemsAt(a, s, b, n - 1);
      OneMore(n - 1, s);
      Between(a, s, 0, n - 1);
    }
  }

  /** After its last round the loop ends exactly if every counter value fits: a counter that
      wraps around is within the limit again. */
  lemma ForEndsIfFits(a: int, s: int, b: int, p: seq<Token>, x: World)
    requires Fits64(a) && Fits64(s) && Fits64(b)
    ensures
      var c := Wrap(Beyond(a, s, b));
      Exhaust(Walk(KFor(s, b, c), p, |p|), x).push == [] <==> CountersFit(a, s, b)
  {
    LastCounter(a, s, b);
    hide ForItems, Wrap, Exhaust, Beyond;
    EndsIfFits(a, s, b, |ForItems(a, s, b)|, Beyond(a, s, b), p, x);
  }

  lemma EndsIfFits(a: int, s: int, b: int, n: nat, t: int, p: seq<Token>, x: World)
    requires Fits64(a) && Fits64(s) && Fits64(b)
    requires (s > 0 ==> t > b) && (s < 0 ==> t < b) && (s == 0 ==> n == 0)
    requires if n == 0 then t == a else if s > 0 then a <= t - s <= b else b <= t - s <= a
    ensures Exhaust(Walk(KFor(s, b, Wrap(t)), p, |p|), x).push == [] <==> Fits64(t)
  {
    WrapsOnce(t);
    hide Wrap;
  }

  /** With the greatest word as its limit, or the least one and a negative step, `for` never
      ends: whatever the counter is, there is one more round. */
  lemma ForNeverEnds(s: int, b: int, c: int, p: seq<Token>, x: World)
    requires Fits64(c) && ((s > 0 && b == INT64_MAX) || (s < 0 && b == INT64_MIN))
    ensures
      var d := Wrap(c + s);
      && Exhaust(Walk(KFor(s, b, c), p, |p|), x) == Out(Push(x, Int(c)), [Walk(KFor(s, b, d), p, 0)])
      && Fits64(d)
  {
  }

  lemma {:induction false} ForNeverComesBack(tco: bool, e: seq<Frame>, s: int, b: int, c: int, x: World, k: nat)
    requires Base(e) && Fits64(c) && ((s > 0 && b == INT64_MAX) || (s < 0 && b == INT64_MIN))
    ensures |Run(tco, State(x, e + [Walk(KFor(s, b, c), [], 0)]), k).fs| == |e| + 1
    decreases k
  {
    if k > 0 {
      var f, d := Walk(KFor(s, b, c), [], 0), Wrap(c + s);
      StepOn(tco, x, e, f);
      ForNeverEnds(s, b, c, [], x);
      hide Exhaust, Wrap;
      StepKeepsInv(tco, State(x, e + [f]));
      ForNeverComesBack(tco, e, s, b, d, Push(x, Int(c)), k - 1);
    }
  }

  /** An example: `9223372036854775806 1 9223372036854775807 {} for` should run twice. */
  lemma ForRunsOver()
    ensures
      && ForItems(INT64_MAX - 1, 1, INT64_MAX) == [INT64_MAX - 1, INT64_MAX]
      && !CountersFit(INT64_MAX - 1, 1, INT64_MAX)
  {
    assert ForItems(INT64_MAX + 1, 1, INT64_MAX) == [];
    assert ForItems(INT64_MAX, 1, INT64_MAX) == [INT64_MAX];
  }

  lemma ForFrame(x: World, a: int, s: int, b: int, p: seq<Token>)
    ensures Operate(For, PushAll(x, [Int(a), Int(s), Int(b), Proc(p)])) == Out(x, [Walk(ForKind(a, s, b, 0), p, |p|)])
  {
    assert Drop(PushAll(x, [Int(a), Int(s), Int(b), Proc(p)]), 4) == x;
  }

  lemma ForKindsFit(a: int, s: int, b: int)
    ensures forall i: nat :: WellFormedKind(ForKind(a, s, b, i)) && !ForKind(a, s, b, i).KProc?
  {
  }

  /** From each world to the next p has been run once, on the next item. */
  ghost predicate Counted(tco: bool, p: seq<Token>, items: seq<int>, xs: seq<World>) {
    && |xs| == |items| + 1
    && forall i :: 0 <= i < |items| ==> Effect(tco, p, Push(xs[i], Int(items[i])), xs[i + 1])
  }

  /** `a s b p for` runs p once for each counter value in turn, with the value pushed; for a
      step of zero there is none. */
  lemma ForIterates(tco: bool, e: seq<Frame>, a: int, s: int, b: int, p: seq<Token>, xs: seq<World>)
    requires Base(e) && CountersFit(a, s, b) && Counted(tco, p, ForItems(a, s, b), xs)
    ensures Reaches(tco, State(PushAll(xs[0], [Int(a), Int(s), Int(b), Proc(p)]), e + [TokF(Func(For))]),
                    State(Last(xs), e))
  {
    hide Operate, Exhaust, Effect, ForItems, ForKind, CountersFit, Beyond, WellFormedKind, Base, Run, PushAll;
    var r := ForItems(a, s, b);
    var n, w := |r|, PushAll(xs[0], [Int(a), Int(s), Int(b), Proc(p)]);
    var ks := seq(n + 1, i requires 0 <= i <= n => ForKind(a, s, b, i));
    var zs := seq(n, i requires 0 <= i < n => Push(xs[i], Int(r[i])));
    ForFrame(xs[0], a, s, b, p);
    ForKindsFit(a, s, b);
    forall i | 0 <= i < n
      ensures Exhaust(Walk(ks[i], p, |p|), xs[i]) == Out(zs[i], [Walk(ks[i + 1], p, 0)])
    {
      ForRound(a, s, b, p, i, xs[i]);
    }
    ForRound(a, s, b, p, n, xs[n]);
    OperatorRuns(tco, e, For, w, p, ks, xs, zs, Last(xs));
  }

  /** The empty body leaves exactly the counter values. */
  lemma ForLeavesItems(tco: bool, e: seq<Frame>, w: World, a: int, s: int, b: int)
    requires Base(e) && CountersFit(a, s, b)
    ensures
      var r := ForItems(a, s, b);
      Reaches(tco, State(PushAll(w, [Int(a), Int(s), Int(b), Proc([])]), e + [TokF(Func(For))]),
              State(PushAll(w, Ints(r)), e))
  {
    var r := ForItems(a, s, b);
    var xs := seq(|r| + 1, i requires 0 <= i <= |r| => PushAll(w, Ints(r[..i])));
    assert xs[0] == w;
    forall i | 0 <= i < |r|
      ensures Effect(tco, [], Push(xs[i], Int(r[i])), xs[i + 1])
    {
      assert Ints(r[..i]) + [Int(r[i])] == Ints(r[..i + 1]);
      assert Push(xs[i], Int(r[i])) == xs[i + 1];
      EffectOfNothing(tco, xs[i + 1]);
    }
    assert r[..|r|] == r;
    ForIterates(tco, e, a, s, b, [], xs);
  }

  function Ints(r: seq<int>): seq<Token> {
    seq(|r|, i requires 0 <= i < |r| => Int(r[i]))
  }

  // ---- forall ----

  /** `a p forall` runs p once per element, in order; procedures serve as arrays too. */
  lemma ForallIterates(tco: bool, e: seq<Frame>, c: Token, p: seq<Token>, xs: seq<World>)
    requires Base(e) && (c.Arr? || c.Proc? || c.LitProc?) && |xs| == |c.items| + 1
    requires forall i :: 0 <= i < |c.items| ==> Effect(tco, p, Push(xs[i], c.items[i]), xs[i + 1])
    ensures Reaches(tco, State(PushAll(xs[0], [c, Proc(p)]), e + [TokF(Func(Forall))]),
                    State(Last(xs), e))
  {
    var a, w := c.items, PushAll(xs[0], [c, Proc(p)]);
    var ks := seq(|a| + 1, i requires 0 <= i <= |a| => KForall(a, i));
    var zs := seq(|a|, i requires 0 <= i < |a| => Push(xs[i], a[i]));
    assert Drop(w, 2) == xs[0];
    OperatorRuns(tco, e, Forall, w, p, ks, xs, zs, Last(xs));
  }

  /** `a p forallindexed` also pushes the index, counted from 0. */
  lemma ForallIndexedIterates(tco: bool, e: seq<Frame>, a: seq<Token>, p: seq<Token>, xs: seq<World>)
    requires Base(e) && |xs| == |a| + 1
    requires forall i :: 0 <= i < |a| ==> Effect(tco, p, PushAll(xs[i], [a[i], Int(i)]), xs[i + 1])
    ensures Reaches(tco, State(PushAll(xs[0], [Arr(a), Proc(p)]), e + [TokF(Func(ForallIndexed))]),
                    State(Last(xs), e))
  {
    var w := PushAll(xs[0], [Arr(a), Proc(p)]);
    var ks := seq(|a| + 1, i requires 0 <= i <= |a| => KForallIndexed(a, |a|, i));
    var zs := seq(|a|, i requires 0 <= i < |a| => PushAll(xs[i], [a[i], Int(i)]));
    assert Drop(w, 2) == xs[0];
    OperatorRuns(tco, e, ForallIndexed, w, p, ks, xs, zs, Last(xs));
  }

  /** The empty body leaves the elements. */
  lemma ForallLeavesItems(tco: bool, e: seq<Frame>, w: World, a: seq<Token>)
    requires Base(e)
    ensures Reaches(tco, State(PushAll(w, [Arr(a), Proc([])]), e + [TokF(Func(Forall))]),
                    State(PushAll(w, a), e))
  {
    var xs := seq(|a| + 1, i requires 0 <= i <= |a| => PushAll(w, a[..i]));
    assert xs[0] == w;
    forall i | 0 <= i < |a| ensures Effect(tco, [], Push(xs[i], a[i]), xs[i + 1]) {
      assert a[..i] + [a[i]] == a[..i + 1];
      assert Push(xs[i], a[i]) == xs[i + 1];
      EffectOfNothing(tco, xs[i + 1]);
    }
    assert a[..|a|] == a;
    ForallIterates(tco, e, Arr(a), [], xs);
  }
}
