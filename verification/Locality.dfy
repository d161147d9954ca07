/** A run above some part of the execution stack does not depend on that part, as long as
    it does not unwind into it. */
module Locality {
  import opened Tokens
  import opened Machine
  import opened Runs

  /** The next step neither finds nothing to unwind nor unwinds below `a`. */
  predicate Local(a: seq<Frame>) {
    && a != []
    && (Last(a) == TokF(Func(Exit)) ==> UnwindLoop(Init(a)).Some?)
    && (Last(a) == TokF(Func(Return)) ==> UnwindReturn(Init(a), false).Some?)
    && (Last(a) == TokF(Func(Stop)) ==> UnwindStopped(Init(a)).Some?)
  }

  /** May lie below anything. */
  ghost predicate Base(e: seq<Frame>) {
    forall f :: f in e ==> WellFormed(f) && Resting(f)
  }

  lemma {:induction false} UnwindLoopAbove(e: seq<Frame>, a: seq<Frame>)
    ensures UnwindLoop(e + a) == if UnwindLoop(a).Some? then Some(e + UnwindLoop(a).value)
                                 else UnwindLoop(e)
  {
    if a == [] {
      assert e + a == e;
    } else {
      assert Init(e + a) == e + Init(a);
      UnwindLoopAbove(e, Init(a));
    }
  }

  lemma {:induction false} UnwindStoppedAbove(e: seq<Frame>, a: seq<Frame>)
    ensures UnwindStopped(e + a) == if UnwindStopped(a).Some? then Some(e + UnwindStopped(a).value)
                                    else UnwindStopped(e)
  {
    if a == [] {
      assert e + a == e;
    } else {
      assert Init(e + a) == e + Init(a);
      UnwindStoppedAbove(e, Init(a));
    }
  }

  lemma {:induction false} UnwindReturnAbove(e: seq<Frame>, a: seq<Frame>, passed: bool)
    requires UnwindReturn(a, passed).Some?
    ensures UnwindReturn(e + a, passed) == Some(e + UnwindReturn(a, passed).value)
  {
    assert Init(e + a) == e + Init(a);
    if IsLoop(Last(a)) {
      UnwindReturnAbove(e, Init(a), true);
    }
  }

  /** A local step does the same above any e. */
  lemma LocalStep(tco: bool, w: World, e: seq<Frame>, a: seq<Frame>)
    requires Local(a) && WellFormed(Last(a))
    ensures
      var s := Step(tco, State(w, a));
      Step(tco, State(w, e + a)) == State(s.w, e + s.fs)
  {
    hide Dispatch, Exhaust, UnwindLoop, UnwindReturn, UnwindStopped, Executable;
    var f, rest := Last(a), Init(a);
    assert Init(e + a) == e + rest && a == rest + [f];
    if f.TokF? {
      LocalDispatch(w, e, rest, f.t);
    } else if f.pos < |f.proc| {
      assert Fetch(tco, w, e + rest, f).fs == e + Fetch(tco, w, rest, f).fs;
    } else {
      assert (e + rest) + Exhaust(f, w).push == e + (rest + Exhaust(f, w).push);
    }
  }

  lemma LocalDispatch(w: World, e: seq<Frame>, rest: seq<Frame>, t: Token)
    requires Local(rest + [TokF(t)])
    ensures
      var s := Dispatch(w, rest, t);
      Dispatch(w, e + rest, t) == State(s.w, e + s.fs)
  {
    hide Operate, Find, Raise, Executable, UnwindReturn, UnwindLoop, UnwindStopped;
    assert Init(rest + [TokF(t)]) == rest;
    if t.Func? {
      UnwindLoopAbove(e, rest);
      UnwindStoppedAbove(e, rest);
      if t.op.Return? { UnwindReturnAbove(e, rest, false); }
      if !Unwinds(t.op) {
        assert (e + rest) + Operate(t.op, w).push == e + (rest + Operate(t.op, w).push);
      }
    } else {
      assert Dispatch(w, e + rest, t).fs == e + Dispatch(w, rest, t).fs;
    }
  }
}
