/** How loops end: by an `exit` in some round, or by coming back, and then only after the rounds
    that `Loops` speaks of. */
module LoopExits {
  import opened Tokens
  import opened Machine
  import opened Runs
  import opened Locality
  import opened Loops

  // ---- exit in a later round ----

  /** Some rounds, one more start of the body, and an `exit` in it: the frame is gone. */
  lemma ExitInRound(tco: bool, e: seq<Frame>, p: seq<Token>, ks: seq<Kind>, xs: seq<World>, zs: seq<World>,
                    k: Kind, z: World, y: World)
    requires Base(e) && Rounds(tco, p, ks, xs, zs) && WellFormedKind(k) && !k.KProc?
    requires Exhaust(Walk(Last(ks), p, |p|), Last(xs)) == Out(z, [Walk(k, p, 0)]) && ExitsWith(tco, p, z, y)
    ensures Reaches(tco, State(xs[0], e + [Walk(ks[0], p, |p|)]), State(y, e))
  {
    var s0, s1 := State(xs[0], e + [Walk(ks[0], p, |p|)]), State(Last(xs), e + [Walk(Last(ks), p, |p|)]);
    var s2 := State(z, e + [Walk(k, p, 0)]);
    RoundsRun(tco, e, p, ks, xs, zs);
    StepOn(tco, Last(xs), e, Walk(Last(ks), p, |p|));
    ReachesStep(tco, s1);
    ExitLeavesLoop(tco, e, k, p, z, y);
    ReachesTrans(tco, s0, s1, s2);
    ReachesTrans(tco, s0, s2, State(y, e));
  }

  /** `p loop` has no other end: n runs of p, and then one that exits. */
  lemma LoopIterates(tco: bool, e: seq<Frame>, p: seq<Token>, xs: seq<World>, y: World)
    requires Base(e) && xs != [] && ExitsWith(tco, p, Last(xs), y)
    requires forall i :: 0 <= i < |xs| - 1 ==> Effect(tco, p, xs[i], xs[i + 1])
    ensures Reaches(tco, State(Push(xs[0], Proc(p)), e + [TokF(Func(Loop))]), State(y, e))
  {
    var s0, s1 := State(Push(xs[0], Proc(p)), e + [TokF(Func(Loop))]), State(xs[0], e + [Walk(KLoop, p, 0)]);
    assert Drop(Push(xs[0], Proc(p)), 1) == xs[0];
    assert Operate(Loop, Push(xs[0], Proc(p))) == Out(xs[0], [Walk(KLoop, p, 0)]);
    hide Operate, Effect, ExitsWith, Run;
    BuilderStep(tco, e, Loop, Push(xs[0], Proc(p)), xs[0], Walk(KLoop, p, 0));
    LoopFrameIterates(tco, e, p, xs, y);
    ReachesTrans(tco, s0, s1, State(y, e));
  }

  lemma {:induction false} LoopFrameIterates(tco: bool, e: seq<Frame>, p: seq<Token>, xs: seq<World>, y: World)
    requires Base(e) && xs != [] && ExitsWith(tco, p, Last(xs), y)
    requires forall i :: 0 <= i < |xs| - 1 ==> Effect(tco, p, xs[i], xs[i + 1])
    ensures Reaches(tco, State(xs[0], e + [Walk(KLoop, p, 0)]), State(y, e))
    decreases |xs|
  {
    hide Effect, ExitsWith, Run;
    if |xs| == 1 {
      ExitLeavesLoop(tco, e, KLoop, p, xs[0], y);
    } else {
      var s1, s2 := State(xs[0], e + [Walk(KLoop, p, 0)]), State(xs[1], e + [Walk(KLoop, p, |p|)]);
      var s3 := State(xs[1], e + [Walk(KLoop, p, 0)]);
      assert Effect(tco, p, xs[0], xs[1]);
      EffectOn(tco, e, KLoop, p, xs[0], xs[1]);
      StepOn(tco, xs[1], e, Walk(KLoop, p, |p|));
      ReachesStep(tco, s2);
      LoopFrameIterates(tco, e, p, xs[1..], y);
      ReachesTrans(tco, s1, s2, s3);
      ReachesTrans(tco, s1, s3, State(y, e));
    }
  }

  /** `a p forall` whose body exits at element k. */
  lemma ForallExits(tco: bool, e: seq<Frame>, a: seq<Token>, p: seq<Token>, xs: seq<World>, y: World)
    requires Base(e) && 0 < |xs| <= |a|
    requires forall i :: 0 <= i < |xs| - 1 ==> Effect(tco, p, Push(xs[i], a[i]), xs[i + 1])
    requires ExitsWith(tco, p, Push(Last(xs), a[|xs| - 1]), y)
    ensures Reaches(tco, State(PushAll(xs[0], [Arr(a), Proc(p)]), e + [TokF(Func(Forall))]), State(y, e))
  {
    hide Effect, ExitsWith, Run, Operate, Reaches, Rounds;
    var w, n := PushAll(xs[0], [Arr(a), Proc(p)]), |xs| - 1;
    ForallFrame(xs[0], a, p);
    BuilderStep(tco, e, Forall, w, xs[0], Walk(KForall(a, 0), p, |p|));
    var ks, zs := ForallRounds(tco, p, a, xs);
    ExitInRound(tco, e, p, ks, xs, zs, KForall(a, n + 1), Push(Last(xs), a[n]), y);
    ReachesTrans(tco, State(w, e + [TokF(Func(Forall))]), State(xs[0], e + [Walk(KForall(a, 0), p, |p|)]),
                 State(y, e));
  }

  /** The first rounds over an array. */
  lemma ForallRounds(tco: bool, p: seq<Token>, a: seq<Token>, xs: seq<World>) returns (ks: seq<Kind>, zs: seq<World>)
    requires 0 < |xs| <= |a|
    requires forall i :: 0 <= i < |xs| - 1 ==> Effect(tco, p, Push(xs[i], a[i]), xs[i + 1])
    ensures Rounds(tco, p, ks, xs, zs) && ks[0] == KForall(a, 0) && Last(ks) == KForall(a, |xs| - 1)
  {
    hide Effect;
    var n := |xs| - 1;
    ks := seq(n + 1, i requires 0 <= i <= n => KForall(a, i));
    zs := seq(n, i requires 0 <= i < n => Push(xs[i], a[i]));
  }

  // ---- coming back ----

  /** A frame still lies on e, and the next step does not unwind into it. */
  predicate Held(e: seq<Frame>, s: State) {
    |s.fs| > |e| && (|s.fs| == |e| + 1 || Local(s.fs[|e| + 1..]))
  }

  /** After m steps, and not before, the run is back at e, and nothing has unwound into the
      frame on e on the way. */
  ghost predicate ComesBack(tco: bool, e: seq<Frame>, s: State, m: nat)
    requires Inv(s)
  {
    Run(tco, s, m).fs == e && forall j: nat :: j < m ==> Held(e, Run(tco, s, j))
  }

  lemma BackAtBase(tco: bool, e: seq<Frame>, s: State, m: nat)
    requires Inv(s) && ComesBack(tco, e, s, m)
    ensures Run(tco, s, m).fs == e
  {}

  lemma ComesBackLater(tco: bool, e: seq<Frame>, s: State, q: nat, m: nat)
    requires Inv(s) && ComesBack(tco, e, s, m) && q <= m
    ensures ComesBack(tco, e, Run(tco, s, q), m - q)
  {
    hide Run, Held, Inv;
    RunSplits(tco, s, q, m - q);
    forall j: nat | j < m - q ensures Held(e, Run(tco, Run(tco, s, q), j)) {
      RunSplits(tco, s, q, j);
      assert Held(e, Run(tco, s, q + j));
    }
  }

  /** A body walk under way, on top of e. */
  ghost predicate Underway(e: seq<Frame>, kd: Kind, p: seq<Token>, b: Body) {
    Placed(e, kd) && !kd.KProc? && b.pos <= |p| && Inv(State(b.w, b.above)) && Inv(On(e, kd, p, b))
  }

  lemma HeldIsGoing(e: seq<Frame>, kd: Kind, p: seq<Token>, b: Body)
    requires Underway(e, kd, p, b) && Held(e, On(e, kd, p, b)) && !(b.above == [] && b.pos == |p|)
    ensures Going(p, b)
  {
    assert On(e, kd, p, b).fs[|e| + 1..] == b.above;
    hide Inv, Local;
  }

  lemma StaysUnderway(tco: bool, e: seq<Frame>, kd: Kind, p: seq<Token>, b: Body)
    requires Underway(e, kd, p, b) && Going(p, b)
    ensures Underway(e, kd, p, BodyStep(tco, p, b)) && Inv(On(e, kd, p, BodyStep(tco, p, b)))
    ensures Step(tco, On(e, kd, p, b)) == On(e, kd, p, BodyStep(tco, p, b))
  {
    BodyStepOn(tco, e, kd, p, b);
    StepKeepsInv(tco, On(e, kd, p, b));
    if b.above != [] { StepKeepsInv(tco, State(b.w, b.above)); }
    hide StepTop, Local, WellFormedKind;
  }

  /** From b the body gets to its end in q steps, with the world y. */
  ghost predicate Ends(tco: bool, e: seq<Frame>, kd: Kind, p: seq<Token>, b: Body, q: nat, y: World)
    requires Underway(e, kd, p, b)
  {
    && BodyRuns(tco, p, b, q, Body(|p|, [], y))
    && Run(tco, On(e, kd, p, b), q) == State(y, e + [Walk(kd, p, |p|)])
  }

  lemma EndsNow(tco: bool, e: seq<Frame>, kd: Kind, p: seq<Token>, b: Body)
    requires Underway(e, kd, p, b) && b.above == [] && b.pos == |p|
    ensures Ends(tco, e, kd, p, b, 0, b.w)
  {
    RunNothing(tco, On(e, kd, p, b));
    assert On(e, kd, p, b).fs == e + [Walk(kd, p, |p|)];
    hide Underway, Run;
  }

  lemma EndsLater(tco: bool, e: seq<Frame>, kd: Kind, p: seq<Token>, b: Body, q: nat, y: World)
    requires Underway(e, kd, p, b) && Going(p, b) && Underway(e, kd, p, BodyStep(tco, p, b))
    requires Step(tco, On(e, kd, p, b)) == On(e, kd, p, BodyStep(tco, p, b))
    requires Ends(tco, e, kd, p, BodyStep(tco, p, b), q, y)
    ensures Ends(tco, e, kd, p, b, q + 1, y)
  {
    hide Going, On, BodyStep, Step;
    RunOne(tco, On(e, kd, p, b));
    RunSplits(tco, On(e, kd, p, b), 1, q);
    hide Underway, Run;
  }

  /** The body of a loop that comes back gets to its end. */
  lemma {:induction false} BodyEnds(tco: bool, e: seq<Frame>, kd: Kind, p: seq<Token>, b: Body, m: nat)
    returns (q: nat, y: World)
    requires Underway(e, kd, p, b) && ComesBack(tco, e, On(e, kd, p, b), m)
    ensures q <= m && Ends(tco, e, kd, p, b, q, y)
    decreases m
  {
    if b.above == [] && b.pos == |p| {
      q, y := 0, b.w;
      EndsNow(tco, e, kd, p, b);
      hide *;
    } else {
      StartIsHeld(tco, e, kd, p, b, m);
      HeldIsGoing(e, kd, p, b);
      StaysUnderway(tco, e, kd, p, b);
      ComesBackLater(tco, e, On(e, kd, p, b), 1, m);
      RunOne(tco, On(e, kd, p, b));
      hide *;
      q, y := BodyEnds(tco, e, kd, p, BodyStep(tco, p, b), m - 1);
      EndsLater(tco, e, kd, p, b, q, y);
      q := q + 1;
    }
  }

  lemma StartIsHeld(tco: bool, e: seq<Frame>, kd: Kind, p: seq<Token>, b: Body, m: nat)
    requires Underway(e, kd, p, b) && ComesBack(tco, e, On(e, kd, p, b), m)
    ensures m > 0 && Held(e, On(e, kd, p, b))
  {
    var s := On(e, kd, p, b);
    RunNothing(tco, s);
    hide Inv, Placed, Held, Run;
    assert m > 0;
    assert Held(e, Run(tco, s, 0));
  }

  lemma NextRound(k: Kind, p: seq<Token>, x: World)
    requires !k.KProc? && WellFormedKind(k)
    ensures
      var f := Walk(k, p, |p|);
      var o := Exhaust(f, x);
      || o.push == [] || o.push == [f, STOP]
      || (o.push == [Walk(o.push[0].kind, p, 0)] && !o.push[0].kind.KProc? && WellFormedKind(o.push[0].kind))
  {}

  /** A Map frame whose body has left a wrong number of results does not come back. */
  lemma FailureStays(tco: bool, e: seq<Frame>, f: Frame, w: World, m: nat)
    requires Inv(State(w, e + [f, STOP]))
    ensures !ComesBack(tco, e, State(w, e + [f, STOP]), m)
  {
    var s := State(w, e + [f, STOP]);
    RunNothing(tco, s);
    assert s.fs[|e| + 1..] == [STOP] && Init([STOP]) == [];
    hide Run, Inv;
    assert !Held(e, Run(tco, s, 0));
  }

  /** A first round in front of others. */
  lemma RoundInFront(tco: bool, p: seq<Token>, k: Kind, x: World, z: World,
                     ks: seq<Kind>, xs: seq<World>, zs: seq<World>)
    requires Rounds(tco, p, ks, xs, zs) && WellFormedKind(k) && !k.KProc?
    requires Exhaust(Walk(k, p, |p|), x) == Out(z, [Walk(ks[0], p, 0)]) && Effect(tco, p, z, xs[0])
    ensures Rounds(tco, p, [k] + ks, [x] + xs, [z] + zs)
    ensures Last([k] + ks) == Last(ks) && Last([x] + xs) == Last(xs)
  {
    hide Exhaust, Effect, WellFormedKind;
  }

  /** The end of a round that is not the last: the body runs to its end once more. */
  lemma RoundEnds(tco: bool, e: seq<Frame>, k: Kind, p: seq<Token>, z: World, m: nat)
    returns (q: nat, y: World)
    requires Placed(e, k) && !k.KProc? && ComesBack(tco, e, State(z, e + [Walk(k, p, 0)]), m)
    ensures q <= m && Effect(tco, p, z, y)
    ensures
      var t := State(y, e + [Walk(k, p, |p|)]);
      && Inv(t) && ComesBack(tco, e, t, m - q)
      && Run(tco, t, m - q) == Run(tco, State(z, e + [Walk(k, p, 0)]), m)
  {
    var b := Body(0, [], z);
    assert On(e, k, p, b) == State(z, e + [Walk(k, p, 0)]);
    q, y := BodyEnds(tco, e, k, p, b, m);
    ComesBackLater(tco, e, On(e, k, p, b), q, m);
    RunSplits(tco, On(e, k, p, b), q, m - q);
  }

  /** The first step of a loop that comes back. */
  lemma FirstStep(tco: bool, e: seq<Frame>, k: Kind, p: seq<Token>, x: World, m: nat)
    requires Placed(e, k) && !k.KProc? && ComesBack(tco, e, State(x, e + [Walk(k, p, |p|)]), m)
    ensures m > 0
    ensures
      var s, o := State(x, e + [Walk(k, p, |p|)]), Exhaust(Walk(k, p, |p|), x);
      if o.push == [] then Run(tco, s, m).w == o.w
      else
        var t := State(o.w, e + o.push);
        Inv(t) && ComesBack(tco, e, t, m - 1) && Run(tco, t, m - 1) == Run(tco, s, m)
  {
    var s, o := State(x, e + [Walk(k, p, |p|)]), Exhaust(Walk(k, p, |p|), x);
    assert Run(tco, s, 0) == s;
    StepOn(tco, x, e, Walk(k, p, |p|));
    hide Exhaust;
    StepKeepsInv(tco, s);
    RunOne(tco, s);
    ComesBackLater(tco, e, s, 1, m);
    RunSplits(tco, s, 1, m - 1);
    assert m > 1 ==> Held(e, Run(tco, s, 1));
  }

  /** It ends, or goes on with one more round. */
  lemma FirstRound(tco: bool, e: seq<Frame>, k: Kind, p: seq<Token>, x: World, m: nat)
    requires Placed(e, k) && !k.KProc? && ComesBack(tco, e, State(x, e + [Walk(k, p, |p|)]), m)
    ensures m > 0
    ensures
      var s, o := State(x, e + [Walk(k, p, |p|)]), Exhaust(Walk(k, p, |p|), x);
      if o.push == [] then Run(tco, s, m).w == o.w
      else
        && o.push == [Walk(o.push[0].kind, p, 0)] && !o.push[0].kind.KProc? && WellFormedKind(o.push[0].kind)
        && (var t := State(o.w, e + [Walk(o.push[0].kind, p, 0)]);
            Inv(t) && ComesBack(tco, e, t, m - 1) && Run(tco, t, m - 1) == Run(tco, s, m))
  {
    FirstStep(tco, e, k, p, x, m);
    NextRound(k, p, x);
    hide Exhaust, Run, ComesBack;
    FailureStays(tco, e, Walk(k, p, |p|), Exhaust(Walk(k, p, |p|), x).w, m - 1);
  }

  lemma RoundsOfNone(tco: bool, p: seq<Token>, k: Kind, x: World)
    requires WellFormedKind(k) && !k.KProc?
    ensures Rounds(tco, p, [k], [x], [])
  {
    hide WellFormedKind;
  }

  /** A loop that comes back has run its body once per round, from the end of a body to the
      end of the last one. */
  lemma {:induction false} LoopComesBack(tco: bool, e: seq<Frame>, k: Kind, p: seq<Token>, x: World, m: nat)
    returns (ks: seq<Kind>, xs: seq<World>, zs: seq<World>)
    requires Placed(e, k) && !k.KProc? && ComesBack(tco, e, State(x, e + [Walk(k, p, |p|)]), m)
    ensures Rounds(tco, p, ks, xs, zs) && ks[0] == k && xs[0] == x
    ensures Exhaust(Walk(Last(ks), p, |p|), Last(xs))
            == Out(Run(tco, State(x, e + [Walk(k, p, |p|)]), m).w, [])
    decreases m
  {
    hide Exhaust, Run, ComesBack, Effect;
    var o := Exhaust(Walk(k, p, |p|), x);
    FirstRound(tco, e, k, p, x, m);
    if o.push == [] {
      RoundsOfNone(tco, p, k, x);
      ks, xs, zs := [k], [x], [];
    } else {
      var k' := o.push[0].kind;
      var q, y := RoundEnds(tco, e, k', p, o.w, m - 1);
      hide Inv, Base, WellFormed, Resting;
      ks, xs, zs := LoopComesBack(tco, e, k', p, y, m - 1 - q);
      RoundInFront(tco, p, k, x, o.w, ks, xs, zs);
      ks, xs, zs := [k] + ks, [x] + xs, [o.w] + zs;
    }
  }

  /** The same, from the operator that builds the frame. */
  lemma BuiltComesBack(tco: bool, e: seq<Frame>, op: Op, w: World, x: World, k: Kind, p: seq<Token>, m: nat)
    requires Placed(e, k) && !Unwinds(op) && Operate(op, w) == Out(x, [Walk(k, p, |p|)])
    requires ComesBack(tco, e, State(w, e + [TokF(Func(op))]), m)
    ensures m > 0
    ensures
      var t := State(x, e + [Walk(k, p, |p|)]);
      ComesBack(tco, e, t, m - 1) && Run(tco, t, m - 1) == Run(tco, State(w, e + [TokF(Func(op))]), m)
  {
    hide Operate, Run, Held;
    var s := State(w, e + [TokF(Func(op))]);
    RunNothing(tco, s);
    StepOn(tco, w, e, TokF(Func(op)));
    assert Step(tco, s) == State(x, e + [Walk(k, p, |p|)]);
    hide StepTop;
    RunOne(tco, s);
    ComesBackLater(tco, e, s, 1, m);
    RunSplits(tco, s, 1, m - 1);
  }

  lemma {:induction false} RepeatKinds(tco: bool, p: seq<Token>, n: int, ks: seq<Kind>, xs: seq<World>,
                                       zs: seq<World>, i: nat)
    requires Rounds(tco, p, ks, xs, zs) && ks[0] == KRepeat(n) && i < |ks|
    ensures ks[i] == KRepeat(n - i) && (i > 0 ==> n - i >= 0)
    ensures i < |zs| ==> n - i > 0 && zs[i] == xs[i]
    decreases i
  {
    if i > 0 { RepeatKinds(tco, p, n, ks, xs, zs, i - 1); }
    if i < |zs| { assert Exhaust(Walk(ks[i], p, |p|), xs[i]) == Out(zs[i], [Walk(ks[i + 1], p, 0)]); }
  }

  lemma RepeatFrame(x: World, n: int, p: seq<Token>)
    ensures Operate(Repeat, PushAll(x, [Int(n), Proc(p)])) == Out(x, [Walk(KRepeat(n), p, |p|)])
  {
    assert Drop(PushAll(x, [Int(n), Proc(p)]), 2) == x;
  }

  lemma ForallFrame(x: World, a: seq<Token>, p: seq<Token>)
    ensures Operate(Forall, PushAll(x, [Arr(a), Proc(p)])) == Out(x, [Walk(KForall(a, 0), p, |p|)])
  {
    assert Drop(PushAll(x, [Arr(a), Proc(p)]), 2) == x;
  }

  /** If `n p repeat` comes back, p has been run exactly max(n, 0) times. */
  lemma RepeatComesBack(tco: bool, e: seq<Frame>, n: int, p: seq<Token>, x: World, m: nat) returns (xs: seq<World>)
    requires Base(e) && ComesBack(tco, e, State(PushAll(x, [Int(n), Proc(p)]), e + [TokF(Func(Repeat))]), m)
    ensures |xs| == (if n > 0 then n else 0) + 1 && xs[0] == x
    ensures Run(tco, State(PushAll(x, [Int(n), Proc(p)]), e + [TokF(Func(Repeat))]), m) == State(Last(xs), e)
    ensures forall i :: 0 <= i < |xs| - 1 ==> Effect(tco, p, xs[i], xs[i + 1])
  {
    var w := PushAll(x, [Int(n), Proc(p)]);
    hide Effect, Run, ComesBack, Operate;
    BackAtBase(tco, e, State(w, e + [TokF(Func(Repeat))]), m);
    RepeatFrame(x, n, p);
    BuiltComesBack(tco, e, Repeat, w, x, KRepeat(n), p, m);
    var ks, zs;
    ks, xs, zs := LoopComesBack(tco, e, KRepeat(n), p, x, m - 1);
    RepeatKinds(tco, p, n, ks, xs, zs, |zs|);
    forall i | 0 <= i < |zs| ensures zs[i] == xs[i] { RepeatKinds(tco, p, n, ks, xs, zs, i); }
  }

  lemma {:induction false} ForallKinds(tco: bool, p: seq<Token>, a: seq<Token>, ks: seq<Kind>, xs: seq<World>,
                                       zs: seq<World>, i: nat)
    requires Rounds(tco, p, ks, xs, zs) && ks[0] == KForall(a, 0) && i < |ks|
    ensures ks[i] == KForall(a, i) && i <= |a|
    ensures i < |zs| ==> i < |a| && zs[i] == Push(xs[i], a[i])
    decreases i
  {
    if i > 0 { ForallKinds(tco, p, a, ks, xs, zs, i - 1); }
    if i < |zs| { assert Exhaust(Walk(ks[i], p, |p|), xs[i]) == Out(zs[i], [Walk(ks[i + 1], p, 0)]); }
  }

  /** If `a p forall` comes back, p has been run once per element, in order. */
  lemma ForallComesBack(tco: bool, e: seq<Frame>, a: seq<Token>, p: seq<Token>, x: World, m: nat)
    returns (xs: seq<World>)
    requires Base(e) && ComesBack(tco, e, State(PushAll(x, [Arr(a), Proc(p)]), e + [TokF(Func(Forall))]), m)
    ensures |xs| == |a| + 1 && xs[0] == x
    ensures Run(tco, State(PushAll(x, [Arr(a), Proc(p)]), e + [TokF(Func(Forall))]), m) == State(Last(xs), e)
    ensures forall i :: 0 <= i < |a| ==> Effect(tco, p, Push(xs[i], a[i]), xs[i + 1])
  {
    var w := PushAll(x, [Arr(a), Proc(p)]);
    hide Effect, Run, ComesBack, Operate;
    BackAtBase(tco, e, State(w, e + [TokF(Func(Forall))]), m);
    ForallFrame(x, a, p);
    BuiltComesBack(tco, e, Forall, w, x, KForall(a, 0), p, m);
    var ks, zs;
    ks, xs, zs := LoopComesBack(tco, e, KForall(a, 0), p, x, m - 1);
    ForallKinds(tco, p, a, ks, xs, zs, |zs|);
    forall i | 0 <= i < |zs| ensures i < |a| && zs[i] == Push(xs[i], a[i]) {
      ForallKinds(tco, p, a, ks, xs, zs, i);
    }
  }

  lemma {:induction false} ForallIndexedKinds(tco: bool, p: seq<Token>, a: seq<Token>, ks: seq<Kind>,
                                              xs: seq<World>, zs: seq<World>, i: nat)
    requires Rounds(tco, p, ks, xs, zs) && ks[0] == KForallIndexed(a, |a|, 0) && i < |ks|
    ensures ks[i] == KForallIndexed(a, |a|, i) && i <= |a|
    ensures i < |zs| ==> i < |a| && zs[i] == PushAll(xs[i], [a[i], Int(i)])
    decreases i
  {
    if i > 0 { ForallIndexedKinds(tco, p, a, ks, xs, zs, i - 1); }
    if i < |zs| { assert Exhaust(Walk(ks[i], p, |p|), xs[i]) == Out(zs[i], [Walk(ks[i + 1], p, 0)]); }
  }

  lemma ForallIndexedFrame(x: World, a: seq<Token>, p: seq<Token>)
    ensures Operate(ForallIndexed, PushAll(x, [Arr(a), Proc(p)]))
            == Out(x, [Walk(KForallIndexed(a, |a|, 0), p, |p|)])
  {
    assert Drop(PushAll(x, [Arr(a), Proc(p)]), 2) == x;
  }

  /** If `a p forallindexed` comes back, p has been run once per element, with its index. */
  lemma ForallIndexedComesBack(tco: bool, e: seq<Frame>, a: seq<Token>, p: seq<Token>, x: World, m: nat)
    returns (xs: seq<World>)
    requires Base(e)
    requires ComesBack(tco, e, State(PushAll(x, [Arr(a), Proc(p)]), e + [TokF(Func(ForallIndexed))]), m)
    ensures |xs| == |a| + 1 && xs[0] == x
    ensures Run(tco, State(PushAll(x, [Arr(a), Proc(p)]), e + [TokF(Func(ForallIndexed))]), m) == State(Last(xs), e)
    ensures forall i :: 0 <= i < |a| ==> Effect(tco, p, PushAll(xs[i], [a[i], Int(i)]), xs[i + 1])
  {
    var w, k := PushAll(x, [Arr(a), Proc(p)]), KForallIndexed(a, |a|, 0);
    hide Effect, Run, ComesBack, Operate;
    BackAtBase(tco, e, State(w, e + [TokF(Func(ForallIndexed))]), m);
    ForallIndexedFrame(x, a, p);
    BuiltComesBack(tco, e, ForallIndexed, w, x, k, p, m);
    var ks, zs;
    ks, xs, zs := LoopComesBack(tco, e, k, p, x, m - 1);
    ForallIndexedKinds(tco, p, a, ks, xs, zs, |zs|);
    forall i | 0 <= i < |zs| ensures i < |a| && zs[i] == PushAll(xs[i], [a[i], Int(i)]) {
      ForallIndexedKinds(tco, p, a, ks, xs, zs, i);
    }
  }

  lemma {:induction false} ForKinds(tco: bool, p: seq<Token>, a: int, s: int, b: int, ks: seq<Kind>,
                                    xs: seq<World>, zs: seq<World>, i: nat)
    requires Rounds(tco, p, ks, xs, zs) && ks[0] == ForKind(a, s, b, 0) && i < |ks| && CountersFit(a, s, b)
    requires Exhaust(Walk(Last(ks), p, |p|), Last(xs)).push == []
    ensures i <= |ForItems(a, s, b)| && ks[i] == ForKind(a, s, b, i)
    ensures i == |zs| <==> i == |ForItems(a, s, b)|
    ensures i < |zs| ==> zs[i] == Push(xs[i], Int(ForItems(a, s, b)[i]))
    decreases i
  {
    hide Effect, ForItems, CountersFit, ForKind;
    if i > 0 { ForKinds(tco, p, a, s, b, ks, xs, zs, i - 1); }
    ForRound(a, s, b, p, i, xs[i]);
    if i < |zs| {
      assert Exhaust(Walk(ks[i], p, |p|), xs[i]) == Out(zs[i], [Walk(ks[i + 1], p, 0)]);
    }
    if 0 < i { ForRound(a, s, b, p, i - 1, xs[i - 1]); }
    hide Exhaust;
  }

  lemma ForRounds(tco: bool, p: seq<Token>, a: int, s: int, b: int, ks: seq<Kind>, xs: seq<World>, zs: seq<World>)
    requires Rounds(tco, p, ks, xs, zs) && ks[0] == ForKind(a, s, b, 0) && CountersFit(a, s, b)
    requires Exhaust(Walk(Last(ks), p, |p|), Last(xs)).push == []
    ensures Counted(tco, p, ForItems(a, s, b), xs) && Exhaust(Walk(Last(ks), p, |p|), Last(xs)).w == Last(xs)
  {
    hide Effect, Exhaust, ForItems, ForKind, CountersFit;
    ForKinds(tco, p, a, s, b, ks, xs, zs, |zs|);
    ForRound(a, s, b, p, |zs|, Last(xs));
    forall i | 0 <= i < |zs| ensures Effect(tco, p, Push(xs[i], Int(ForItems(a, s, b)[i])), xs[i + 1]) {
      ForKinds(tco, p, a, s, b, ks, xs, zs, i);
    }
  }

  lemma ForStarts(tco: bool, e: seq<Frame>, a: int, s: int, b: int, p: seq<Token>, x: World, m: nat)
    requires Base(e)
    requires ComesBack(tco, e, State(PushAll(x, [Int(a), Int(s), Int(b), Proc(p)]), e + [TokF(Func(For))]), m)
    ensures m > 0 && Placed(e, ForKind(a, s, b, 0)) && !ForKind(a, s, b, 0).KProc?
    ensures
      var u := State(PushAll(x, [Int(a), Int(s), Int(b), Proc(p)]), e + [TokF(Func(For))]);
      var t := State(x, e + [Walk(ForKind(a, s, b, 0), p, |p|)]);
      ComesBack(tco, e, t, m - 1) && Run(tco, t, m - 1) == Run(tco, u, m) && Run(tco, u, m).fs == e
  {
    var w := PushAll(x, [Int(a), Int(s), Int(b), Proc(p)]);
    hide Run, ComesBack, Operate, PushAll;
    BackAtBase(tco, e, State(w, e + [TokF(Func(For))]), m);
    ForFrame(x, a, s, b, p);
    BuiltComesBack(tco, e, For, w, x, ForKind(a, s, b, 0), p, m);
  }

  /** If `a s b p for` comes back, and its counter never wraps, p has been run once per counter
      value, in turn. */
  lemma ForComesBack(tco: bool, e: seq<Frame>, a: int, s: int, b: int, p: seq<Token>, x: World, m: nat)
    returns (xs: seq<World>)
    requires Base(e) && CountersFit(a, s, b)
    requires ComesBack(tco, e, State(PushAll(x, [Int(a), Int(s), Int(b), Proc(p)]), e + [TokF(Func(For))]), m)
    ensures Counted(tco, p, ForItems(a, s, b), xs) && xs[0] == x
    ensures Run(tco, State(PushAll(x, [Int(a), Int(s), Int(b), Proc(p)]), e + [TokF(Func(For))]), m)
            == State(Last(xs), e)
  {
    hide *;
    var k := ForKind(a, s, b, 0);
    ForStarts(tco, e, a, s, b, p, x, m);
    var ks, zs;
    ks, xs, zs := LoopComesBack(tco, e, k, p, x, m - 1);
    ForRounds(tco, p, a, s, b, ks, xs, zs);
  }
}
