/** `stopped` is a catch, and errors reach it. */
module StoppedContext {
  import opened Tokens
  import opened Machine
  import opened Runs
  import opened Locality

  /** The run is still under the sentinel that lies on e. */
  predicate Inside(e: seq<Frame>, s: State) {
    e + [SENTINEL] <= s.fs
  }

  function Above(e: seq<Frame>, s: State): seq<Frame>
    requires Inside(e, s)
  {
    s.fs[|e| + 1..]
  }

  /** The next step is an `exit` that finds its loop only below the sentinel. */
  predicate ExitCrosses(e: seq<Frame>, s: State)
    requires Inside(e, s)
  {
    var a := Above(e, s);
    a != [] && Last(a) == TokF(Func(Exit)) && UnwindLoop(Init(a)).None? && UnwindLoop(e).Some?
  }

  /** The next step is a `stop` for this sentinel. */
  predicate StopHits(e: seq<Frame>, s: State)
    requires Inside(e, s)
  {
    var a := Above(e, s);
    a != [] && Last(a) == STOP && UnwindStopped(Init(a)).None?
  }

  /** The internal name still means what the system dictionary says. */
  predicate SentinelMeansFalse(w: World) {
    Find(w, ISTOPPED) == Some(Bool(false))
  }

  lemma {:induction false} ReturnStopsAtSentinel(b: seq<Frame>, a: seq<Frame>, passed: bool)
    requires b != [] && Last(b) == SENTINEL
    ensures UnwindReturn(b + a, passed).Some? ==> b <= UnwindReturn(b + a, passed).value
  {
    if a == [] {
      assert b + a == b;
    } else {
      assert Init(b + a) == b + Init(a);
      if IsLoop(Last(a)) {
        ReturnStopsAtSentinel(b, Init(a), true);
      }
    }
  }

  /** Only the unwinding functions take frames away. */
  lemma OthersOnlyPush(tco: bool, w: World, rest: seq<Frame>, f: Frame)
    requires WellFormed(f)
    requires !(f.TokF? && f.t.Func? && Unwinds(f.t.op))
    ensures rest <= StepTop(tco, w, rest, f).fs
  {
  }

  /** Every step from inside stays inside, or delivers a verdict on top of e, or is an
      `exit` to a loop below. `return` never gets past the sentinel. */
  lemma StepFromInside(tco: bool, e: seq<Frame>, s: State)
    requires Inv(s) && Inside(e, s) && SentinelMeansFalse(s.w)
    ensures
      var t := Step(tco, s);
      if Above(e, s) == [] then t == State(s.w, e + [TokF(Bool(false))])
      else if StopHits(e, s) then t == State(Push(s.w, Bool(true)), e)
      else if ExitCrosses(e, s) then t.w == s.w && t.fs == UnwindLoop(e).value && |t.fs| < |e|
      else Inside(e, t)
  {
    TopAbove(e, s);
    hide Step, Inv, UnwindLoop, UnwindStopped, WellFormed, SentinelMeansFalse;
    StepOverSentinel(tco, s.w, e, Above(e, s));
  }

  lemma TopAbove(e: seq<Frame>, s: State)
    requires Inv(s) && Inside(e, s)
    ensures
      var a := Above(e, s);
      s == State(s.w, e + [SENTINEL] + a) && (a != [] ==> WellFormed(Last(a)))
  {
    var a := Above(e, s);
    if a != [] { assert Last(a) == Last(s.fs) && Last(s.fs) in s.fs; }
    hide WellFormed, Resting;
  }

  lemma StepOverSentinel(tco: bool, w: World, e: seq<Frame>, a: seq<Frame>)
    requires SentinelMeansFalse(w) && (a != [] ==> WellFormed(Last(a)))
    ensures
      var t := Step(tco, State(w, e + [SENTINEL] + a));
      if a == [] then t == State(w, e + [TokF(Bool(false))])
      else if Last(a) == STOP && UnwindStopped(Init(a)).None? then t == State(Push(w, Bool(true)), e)
      else if Last(a) == TokF(Func(Exit)) && UnwindLoop(Init(a)).None? && UnwindLoop(e).Some? then
        t == State(w, UnwindLoop(e).value) && |t.fs| < |e|
      else Inside(e, t)
  {
    if a == [] {
      assert e + [SENTINEL] + a == e + [SENTINEL];
      StepOn(tco, w, e, SENTINEL);
    } else {
      assert e + [SENTINEL] + a == e + [SENTINEL] + Init(a) + [Last(a)];
      StepOn(tco, w, e + [SENTINEL] + Init(a), Last(a));
      TopFromInside(tco, w, e, Init(a), Last(a));
    }
  }

  lemma TopFromInside(tco: bool, w: World, e: seq<Frame>, a: seq<Frame>, f: Frame)
    requires WellFormed(f)
    ensures
      var t := StepTop(tco, w, e + [SENTINEL] + a, f);
      if f == STOP && UnwindStopped(a).None? then t == State(Push(w, Bool(true)), e)
      else if f == TokF(Func(Exit)) && UnwindLoop(a).None? && UnwindLoop(e).Some? then
        t == State(w, UnwindLoop(e).value) && |t.fs| < |e|
      else Inside(e, t)
  {
    if f.TokF? && f.t.Func? && Unwinds(f.t.op) {
      UnwindFromInside(w, e, a, f.t.op);
    } else {
      OthersOnlyPush(tco, w, e + [SENTINEL] + a, f);
    }
  }

  lemma UnwindFromInside(w: World, e: seq<Frame>, a: seq<Frame>, op: Op)
    requires Unwinds(op)
    ensures
      var t := Perform(op, w, e + [SENTINEL] + a);
      if op.Stop? && UnwindStopped(a).None? then t == State(Push(w, Bool(true)), e)
      else if op.Exit? && UnwindLoop(a).None? && UnwindLoop(e).Some? then
        t == State(w, UnwindLoop(e).value) && |t.fs| < |e|
      else Inside(e, t)
  {
    var b := e + [SENTINEL];
    assert Init(b) == e && Last(b) == SENTINEL;
    UnwindLoopAbove(b, a);
    UnwindStoppedAbove(b, a);
    UnwindLoopIsPrefix(e);
    ReturnStopsAtSentinel(b, a, false);
  }

  /** The verdict b lies on the operand stack and control is back at e: `true` straight after
      a `stop`, `false` after the body ran to its end. */
  ghost predicate Verdict(tco: bool, e: seq<Frame>, s: State, k: nat, b: bool)
    requires Inv(s)
  {
    if b then
      k >= 1 && var t := Run(tco, s, k - 1);
      Inside(e, t) && StopHits(e, t) && Run(tco, s, k) == State(Push(t.w, Bool(true)), e)
    else
      k >= 2 && var t := Run(tco, s, k - 2);
      t.fs == e + [SENTINEL] && Run(tco, s, k) == State(Push(t.w, Bool(false)), e)
  }

  /** As long as the first n steps stay inside, no `exit` crosses the sentinel and its name
      is not rebound. */
  ghost predicate Undisturbed(tco: bool, e: seq<Frame>, s: State, n: nat)
    requires Inv(s) && Inside(e, s)
    decreases n
  {
    n > 0 ==>
      && SentinelMeansFalse(s.w) && !ExitCrosses(e, s)
      && (StepKeepsInv(tco, s);
          Inside(e, Step(tco, s)) ==> Undisturbed(tco, e, Step(tco, s), n - 1))
  }

  lemma VerdictLater(tco: bool, e: seq<Frame>, s: State, k: nat, b: bool)
    requires Inv(s) && Inv(Step(tco, s)) && Verdict(tco, e, Step(tco, s), k, b)
    ensures Verdict(tco, e, s, k + 1, b)
  {}

  /** The step that ends the context leads to the verdict. */
  lemma VerdictNow(tco: bool, e: seq<Frame>, s: State)
    requires Inv(s) && Inside(e, s) && SentinelMeansFalse(s.w) && !ExitCrosses(e, s)
    requires !Inside(e, Step(tco, s))
    ensures exists k: nat, b :: k <= 2 && Verdict(tco, e, s, k, b)
  {
    StepFromInside(tco, e, s);
    StepKeepsInv(tco, s);
    RunLast(tco, s, 0);
    if StopHits(e, s) {
      assert Verdict(tco, e, s, 1, true);
    } else {
      assert s.fs == e + [SENTINEL] + Above(e, s) == e + [SENTINEL];
      StepOn(tco, s.w, e, TokF(Bool(false)));
      RunLast(tco, s, 1);
      assert Verdict(tco, e, s, 2, false);
    }
  }

  /** `stopped` is a catch: after any number of steps the run is still inside, or it has
      come back to exactly the stack below with one boolean. */
  lemma {:induction false} StoppedCatches(tco: bool, e: seq<Frame>, s: State, n: nat)
    requires Inv(s) && Inside(e, s) && Undisturbed(tco, e, s, n)
    ensures Inside(e, Run(tco, s, n)) || exists k: nat, b :: k <= n + 1 && Verdict(tco, e, s, k, b)
    decreases n
  {
    if n > 0 {
      var t := Step(tco, s);
      StepKeepsInv(tco, s);
      if Inside(e, t) {
        StoppedCatches(tco, e, t, n - 1);
        if !Inside(e, Run(tco, t, n - 1)) {
          var k: nat, b :| k <= n && Verdict(tco, e, t, k, b);
          VerdictLater(tco, e, s, k, b);
        }
      } else {
        VerdictNow(tco, e, s);
      }
    }
  }

  /** The state after `stopped` has taken its operand. */
  ghost function Entered(w: World, e: seq<Frame>): (s: State)
    requires w.ost != [] && Base(e)
    ensures Inv(s) && Inside(e, s)
  {
    State(Drop(w, 1), e + [SENTINEL, TokF(Pick(w.ost, 0))])
  }

  lemma StoppedEnters(tco: bool, w: World, e: seq<Frame>)
    requires w.ost != [] && Base(e)
    ensures Step(tco, State(w, e + [TokF(Func(Stopped))])) == Entered(w, e)
  {
    StepOn(tco, w, e, TokF(Func(Stopped)));
  }

  /** So a program that calls `stopped` and halts has got the boolean on the way. */
  lemma StoppedDelivers(tco: bool, w: World, e: seq<Frame>, n: nat)
    requires w.ost != [] && Base(e) && Undisturbed(tco, e, Entered(w, e), n)
    requires Run(tco, State(w, e + [TokF(Func(Stopped))]), n + 1).fs == []
    ensures exists k: nat, b :: k <= n + 2 && Verdict(tco, e, State(w, e + [TokF(Func(Stopped))]), k, b)
  {
    var s, t := State(w, e + [TokF(Func(Stopped))]), Entered(w, e);
    StoppedEnters(tco, w, e);
    RunOne(tco, s);
    RunSplits(tco, s, 1, n);
    StoppedCatches(tco, e, t, n);
    var k: nat, b :| k <= n + 1 && Verdict(tco, e, t, k, b);
    VerdictLater(tco, e, s, k, b);
  }

  /** Any error and the `stop` it schedules leave one literal and `true` at the nearest
      sentinel. */
  lemma ErrorReachesSentinel(tco: bool, w: World, rest: seq<Frame>, cmd: Name, err: Name)
    requires UnwindStopped(rest).Some?
    ensures
      var o := Fail(w, cmd, err);
      var t := Step(tco, State(o.w, rest + o.push));
      && t.fs == UnwindStopped(rest).value
      && t.w.ost == w.ost + [Lit(if w.err.newerror then "BadErrorHandler" else cmd), Bool(true)]
      && t.w.below == w.below && t.w.current == w.current
      && t.w.err.newerror == !w.err.newerror
  {
    var o := Fail(w, cmd, err);
    StepOn(tco, o.w, rest, STOP);
  }
}
