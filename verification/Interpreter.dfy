/** The interpreter object: operand stack, execution stack of slots, dictionaries. Its
    methods work on the slots; their contracts speak of the reference machine. */
module InterpreterObject {
  import opened Tokens
  import opened Machine
  import opened Runs
  import opened Layout
  import opened FrameBuilders
  import T = TailCall

  class Interpreter {
    var ostack: seq<Token>
    var estack: seq<Slot>
    var below: seq<Dictionary>
    var current: Dictionary
    var err: Errors
    const showBacktrace: bool

    constructor (w: World, es: seq<Slot>, showBacktrace: bool)
      ensures W() == w && estack == es && this.showBacktrace == showBacktrace
    {
      this.showBacktrace := showBacktrace;
      ostack, below, current, err := w.ost, w.below, w.current, w.err;
      estack := es;
    }

    function W(): World
      reads this
    {
      World(ostack, below, current, err)
    }

    // ---- the stacks ----

    method PopE(n: nat)
      requires n <= |estack|
      modifies this`estack
      ensures estack == Cut(old(estack), n)
    {
      estack := estack[..|estack| - n];
    }

    method PushE(s: Slot)
      modifies this`estack
      ensures estack == old(estack) + [s]
    {
      estack := estack + [s];
    }

    /** Pushes the slots of a frame, bottom first. */
    method PushSlots(ss: seq<Slot>)
      modifies this`estack
      ensures estack == old(estack) + ss
    {
      var base := estack;
      for i := 0 to |ss|
        invariant estack == base + ss[..i]
      {
        estack := estack + [ss[i]];
        assert ss[..i] + [ss[i]] == ss[..i + 1];
      }
    }

    method PopO(n: nat)
      requires n <= |ostack|
      modifies this`ostack
      ensures W() == Drop(old(W()), n)
    {
      ostack := ostack[..|ostack| - n];
    }

    method PushO(t: Token)
      modifies this`ostack
      ensures W() == Push(old(W()), t)
    {
      ostack := ostack + [t];
    }

    // ---- errors ----

    /** Records the error, pushes the command's name and schedules `stop`. */
    method RaiseError(cmd: Name, e: Name)
      modifies this
      ensures W() == Raise(old(W()), cmd, e) && estack == old(estack) + [Tok(Func(Stop))]
    {
      if !err.newerror {
        err := Errors(true, e, cmd);
        PushO(Lit(cmd));
      } else {
        err := err.(newerror := false);
        PushO(Lit("BadErrorHandler"));
      }
      PushE(Tok(Func(Stop)));
    }

    // ---- unwinding ----

    /** `exit`: scan for the nearest mark and pop through it. */
    method ExitFunction(ghost fs: seq<Frame>)
      requires estack == Flat(fs) && AllResting(fs)
      modifies this
      ensures var s := Perform(Exit, old(W()), fs); W() == s.w && estack == Flat(s.fs)
    {
      hide IsMark, AllResting, Slots, Flat, UnwindLoop, Raise;
      var n, l := 0, |estack|;
      while n < l && !IsMark(Peek(estack, n))
        invariant n <= l == |estack| && NoneAbove(IsMark, estack, n)
      {
        n := n + 1;
      }
      assert n < l ==> FirstAt(IsMark, estack, n);
      FlatToken(fs, Func(Stop));
      hide Peek, NoneAbove, FirstAt;
      if n >= l {
        NoMarkNoLoop(fs);
        RaiseError(OpName(Exit), "EStackUnderflow");
        return;
      }
      MarkIsLoopBottom(fs, n);
      PopE(n + 1);
    }

    /** `stop`: scan for the nearest sentinel, push `true` and pop through it. */
    method StopFunction(ghost fs: seq<Frame>)
      requires estack == Flat(fs) && AllResting(fs)
      modifies this
      ensures var s := Perform(Stop, old(W()), fs); W() == s.w && estack == Flat(s.fs)
    {
      hide Perform, UnwindStopped, AllResting, Slots, Flat, Peek, IsSentinel;
      StopPerforms(W(), fs);
      FlatEmpty([]);
      var n, l, found := 0, |estack|, false;
      while n < l
        invariant n <= l == |estack| && NoneAbove(IsSentinel, estack, n)
        invariant !found
      {
        if IsSentinel(Peek(estack, n)) {
          found := true;
          break;
        }
        n := n + 1;
      }
      if !found {
        NoSentinelNoContext(fs);
        estack := [];
        return;
      }
      SentinelIsFrame(fs, n);
      PushO(Bool(true));
      PopE(n + 1);
    }

    /** `return`: step over loop frames by their sizes until a procedure's marker. */
    method ReturnFunction(ghost fs: seq<Frame>)
      requires estack == Flat(fs)
      modifies this
      ensures var s := Perform(Return, old(W()), fs); W() == s.w && estack == Flat(s.fs)
    {
      var n, l := 0, |estack|;
      ghost var gs := fs;
      ghost var target := UnwindReturn(fs, false);
      hide Flat, Slots, UnwindReturn, LoopSize, Perform, Raise;
      FlatToken(fs, Func(Stop));
      ReturnPerforms(W(), fs);
      while n < l
        invariant n <= l == |estack| && W() == old(W()) && estack == Flat(fs)
        invariant Flat(gs) == Cut(estack, n)
        invariant target == UnwindReturn(gs, n > 0)
      {
        ReturnScan(estack, gs, n, n > 0);
        match Peek(estack, n) {
          case Marked(m) =>
            if m.IIterate? {
              PopE(n + 3);
              return;
            }
            n := n + LoopSize(m);
            gs := Init(gs);
          case Tok(_) =>
            if n == 0 {
              RaiseError(OpName(Return), "InvalidReturn");
              return;
            }
            PopE(n);
            return;
        }
      }
      NoReturnTarget(gs, n > 0);
      RaiseError(OpName(Return), "InvalidReturn");
    }

    // ---- functions that only push on the execution stack ----

    /** What the function should have done, from the world w and the slots es. */
    ghost predicate Performed(op: Op, w: World, es: seq<Slot>)
      requires !Unwinds(op)
      reads this
    {
      W() == Operate(op, w).w && estack == es + Flat(Operate(op, w).push)
    }

    ghost predicate Failed(op: Op, e: Name, w: World, es: seq<Slot>)
      reads this
    {
      W() == Raise(w, OpName(op), e) && estack == es + [Tok(Func(Stop))]
    }

    /** Demands n operands; an error is raised otherwise. */
    method RequireLoad(op: Op, n: nat) returns (ok: bool)
      modifies this
      ensures ok <==> old(|ostack|) >= n
      ensures if ok then W() == old(W()) && estack == old(estack)
              else Failed(op, "StackUnderflow", old(W()), old(estack))
    {
      ok := |ostack| >= n;
      if !ok { RaiseError(OpName(op), "StackUnderflow"); }
    }

    /** Demands a type at a depth of the operand stack. */
    method RequireType(op: Op, k: nat, tag: Tag) returns (ok: bool)
      requires k < |ostack|
      modifies this
      ensures ok <==> HasTag(old(Pick(ostack, k)), tag)
      ensures if ok then W() == old(W()) && estack == old(estack)
              else Failed(op, "TypeMismatch", old(W()), old(estack))
    {
      ok := HasTag(Pick(ostack, k), tag);
      if !ok { RaiseError(OpName(op), "TypeMismatch"); }
    }

    /** Demands a type at each depth, from the top of the operand stack down. */
    method RequireTypes(op: Op, tags: seq<Tag>) returns (ok: bool)
      requires |tags| <= |ostack|
      modifies this
      ensures ok <==> Typed(old(ostack), tags)
      ensures if ok then W() == old(W()) && estack == old(estack)
              else Failed(op, "TypeMismatch", old(W()), old(estack))
    {
      for k := 0 to |tags|
        invariant W() == old(W()) && estack == old(estack)
        invariant forall j: nat :: j < k ==> HasTag(Pick(ostack, j), tags[j])
      {
        ok := RequireType(op, k, tags[k]);
        if !ok { return; }
      }
      ok := true;
    }

    method PopFunction()
      modifies this
      ensures Performed(Pop, old(W()), old(estack))
    {
      FlatFailure();
      var ok := RequireLoad(Pop, 1);
      if !ok { return; }
      PopO(1);
    }

    method DupFunction()
      modifies this
      ensures Performed(Dup, old(W()), old(estack))
    {
      FlatFailure();
      var ok := RequireLoad(Dup, 1);
      if !ok { return; }
      PushO(Pick(ostack, 0));
    }

    method ExchFunction()
      modifies this
      ensures Performed(Exch, old(W()), old(estack))
    {
      FlatFailure();
      var ok := RequireLoad(Exch, 2);
      if !ok { return; }
      var l := |ostack|;
      ostack := ostack[l - 1 := ostack[l - 2]][l - 2 := ostack[l - 1]];
      assert ostack == Drop(old(W()), 2).ost + [old(ostack[l - 1]), old(ostack[l - 2])];
    }

    /** `add` and `sub`: the result is written over the lower operand unless it overflows. */
    method ArithFunction(op: Op)
      requires op.Add? || op.Sub?
      modifies this
      ensures Performed(op, old(W()), old(estack))
    {
      hide Raise, Flat, Slots;
      FlatFailure();
      var ok := RequireLoad(op, 2);
      if !ok { return; }
      var a, b := Pick(ostack, 1), Pick(ostack, 0);
      if a.Int? && b.Int? {
        var out := if op.Add? then a.i + b.i else a.i - b.i;
        if !Fits64(out) {
          RaiseError(OpName(op), "RangeCheck");
          return;
        }
        ostack := ostack[|ostack| - 2 := Int(out)];
        PopO(1);
        assert ostack == Drop(old(W()), 2).ost + [Int(out)];
        return;
      }
      RaiseError(OpName(op), "ArgumentType");
    }

    method IfFunction()
      modifies this
      ensures Performed(If, old(W()), old(estack))
    {
      hide Raise;
      FlatFailure();
      var ok := RequireLoad(If, 2);
      if !ok { return; }
      ok := RequireType(If, 1, TBool);
      if !ok { return; }
      FlatOne(TokF(Pick(ostack, 0)));
      if Pick(ostack, 1).b {
        PushE(Tok(Pick(ostack, 0)));
      }
      PopO(2);
    }

    method IfelseFunction()
      modifies this
      ensures Performed(Ifelse, old(W()), old(estack))
    {
      FlatFailure();
      var ok := RequireLoad(Ifelse, 3);
      if !ok { return; }
      ok := RequireType(Ifelse, 2, TBool);
      if !ok { return; }
      var chosen := if Pick(ostack, 2).b then Pick(ostack, 1) else Pick(ostack, 0);
      FlatOne(TokF(chosen));
      PushE(Tok(chosen));
      PopO(3);
    }

    method ExecFunction()
      modifies this
      ensures Performed(Exec, old(W()), old(estack))
    {
      FlatFailure();
      var ok := RequireLoad(Exec, 1);
      if !ok { return; }
      FlatOne(TokF(Pick(ostack, 0)));
      PushE(Tok(Pick(ostack, 0)));
      PopO(1);
    }

    method DefFunction()
      modifies this
      ensures Performed(Def, old(W()), old(estack))
    {
      FlatFailure();
      var ok := RequireLoad(Def, 2);
      if !ok { return; }
      ok := RequireType(Def, 1, TLit);
      if !ok { return; }
      current := current[Pick(ostack, 1).name := Pick(ostack, 0)];
      PopO(2);
    }

    method StoppedFunction()
      modifies this
      ensures Performed(Stopped, old(W()), old(estack))
    {
      FlatFailure();
      var ok := RequireLoad(Stopped, 1);
      if !ok { return; }
      FlatTwo([], SENTINEL, TokF(Pick(ostack, 0)));
      assert [] + [SENTINEL, TokF(Pick(ostack, 0))] == [SENTINEL, TokF(Pick(ostack, 0))];
      PushE(Tok(Nam(ISTOPPED)));
      PushE(Tok(Pick(ostack, 0)));
      PopO(1);
    }

    method LoopFunction()
      modifies this
      ensures Performed(Loop, old(W()), old(estack))
    {
      BuildsLoop(W());
      FlatFailure();
      hide Operate, Flat, Slots, Raise;
      var ok := RequireLoad(Loop, 1);
      if !ok { return; }
      ok := RequireType(Loop, 0, TProc);
      if !ok { return; }
      PushSlots([
          Tok(Mark),
          Tok(Pick(ostack, 0)),
          Tok(Int(0)),
          Marked(ILoop)
        ]);
      PopO(1);
    }

    method RepeatFunction()
      modifies this
      ensures Performed(Repeat, old(W()), old(estack))
    {
      BuildsRepeat(W());
      FlatFailure();
      hide Operate, Flat, Slots, Raise;
      var ok := RequireLoad(Repeat, 2);
      if !ok { return; }
      ok := RequireTypes(Repeat, [TProc, TInt]);
      if !ok { return; }
      PushSlots([
          Tok(Mark),
          Tok(Pick(ostack, 1)),
          Tok(Pick(ostack, 0)),
          Tok(Int(|Pick(ostack, 0).items|)),
          Marked(IRepeat)
        ]);
      PopO(2);
    }

    method ForFunction()
      modifies this
      ensures Performed(For, old(W()), old(estack))
    {
      BuildsFor(W());
      FlatFailure();
      hide Operate, Flat, Slots, Raise;
      var ok := RequireLoad(For, 4);
      if !ok { return; }
      ok := RequireTypes(For, [TProc, TInt, TInt, TInt]);
      if !ok { return; }
      PushSlots([
          Tok(Mark),
          Tok(Pick(ostack, 2)),
          Tok(Pick(ostack, 1)),
          Tok(Pick(ostack, 3)),
          Tok(Pick(ostack, 0)),
          Tok(Int(|Pick(ostack, 0).items|)),
          Marked(IFor)
        ]);
      PopO(4);
    }

    method ForallFunction()
      modifies this
      ensures Performed(Forall, old(W()), old(estack))
    {
      BuildsForall(W());
      FlatFailure();
      hide Operate, Flat, Slots, Raise;
      var ok := RequireLoad(Forall, 2);
      if !ok { return; }
      var a, c := Pick(ostack, 0), Pick(ostack, 1);
      if !a.Proc? || !(c.Arr? || c.Proc? || c.LitProc?) {
        RaiseError(OpName(Forall), "ArgumentType");
        return;
      }
      PushSlots([
          Tok(Mark),
          Tok(Arr(c.items)),
          Tok(Int(0)),
          Tok(a),
          Tok(Int(|a.items|)),
          Marked(IForall)
        ]);
      PopO(2);
    }

    method ForallIndexedFunction()
      modifies this
      ensures Performed(ForallIndexed, old(W()), old(estack))
    {
      BuildsForallIndexed(W());
      FlatFailure();
      hide Operate, Flat, Slots, Raise;
      var ok := RequireLoad(ForallIndexed, 2);
      if !ok { return; }
      var a, c := Pick(ostack, 0), Pick(ostack, 1);
      if !a.Proc? || !c.Arr? {
        RaiseError(OpName(ForallIndexed), "ArgumentType");
        return;
      }
      PushSlots([
          Tok(Mark),
          Tok(c),
          Tok(Int(|c.items|)),
          Tok(Int(0)),
          Tok(a),
          Tok(Int(|a.items|)),
          Marked(IForallIndexed)
        ]);
      PopO(2);
    }

    /** `Map` and `MapIndexed`: the array stays on the operand stack, a copy is the target. */
    method MapFunction(op: Op)
      requires op.Map? || op.MapIndexed?
      modifies this
      ensures Performed(op, old(W()), old(estack))
    {
      BuildsMap(op, W());
      FlatFailure();
      hide Operate, Flat, Slots, Raise, Typed, OpName;
      var ok := RequireLoad(op, 2);
      if !ok { return; }
      ok := RequireTypes(op, [TProc, TArr]);
      if !ok { return; }
      PushMapFrame(op);
    }

    method PushMapFrame(op: Op)
      requires (op.Map? || op.MapIndexed?) && |ostack| >= 2 && Typed(ostack, [TProc, TArr])
      modifies this
      ensures Performed(op, old(W()), old(estack))
    {
      hide Operate, Flat, Slots, Raise, Typed, OpName, MapFrame, Fail, Pick, Drop;
      BuildsMap(op, W());
      FlatEmpty([]);
      TypedTwo(ostack, TProc, TArr);
      var proc, src := Pick(ostack, 0), Pick(ostack, 1);
      if |proc.items| == 0 || |src.items| == 0 {
        PopO(1);
        return;
      }
      PushSlots(MapFrame(op.MapIndexed?, |ostack| - 1, src, proc));
      PopO(1);
    }

    /** `MapThread`: all rows are checked before anything is pushed. */
    method MapThreadFunction()
      modifies this
      ensures Performed(MapThread, old(W()), old(estack))
    {
      BuildsMapThread(W());
      FlatFailure();
      hide Operate, Flat, Slots, Raise;
      var ok := RequireLoad(MapThread, 2);
      if !ok { return; }
      ok := RequireTypes(MapThread, [TProc, TArr]);
      if !ok { return; }
      TypedTwo(ostack, TProc, TArr);
      var proc, outer := Pick(ostack, 0).items, Pick(ostack, 1).items;
      if |outer| == 0 {
        PopO(1);
        return;
      }
      if !outer[0].Arr? {
        RaiseError(OpName(MapThread), "ArgumentType");
        return;
      }
      var first := outer[0].items;
      ok := RequireRows(outer, |first|);
      if !ok { return; }
      if |proc| == 0 || |first| == 0 {
        PopO(1);
        return;
      }
      PushSlots([
          Tok(Mark),
          Tok(Int(|ostack| - 1)),
          Tok(Pick(ostack, 1)),
          Tok(Arr(first)),
          Tok(Int(0)),
          Tok(Pick(ostack, 0)),
          Tok(Int(|proc|)),
          Marked(IMapThread)
        ]);
      PopO(1);
    }

    /** Demands that every row is an array of length n. */
    method RequireRows(outer: seq<Token>, n: nat) returns (ok: bool)
      modifies this
      ensures ok <==> RowError(outer, n).None?
      ensures if ok then W() == old(W()) && estack == old(estack)
              else Failed(MapThread, RowError(outer, n).value, old(W()), old(estack))
    {
      for t := 0 to |outer|
        invariant W() == old(W()) && estack == old(estack)
        invariant RowError(outer, n) == RowError(outer[t..], n)
      {
        if !outer[t].Arr? {
          RaiseError(OpName(MapThread), "ArgumentType");
          return false;
        }
        if |outer[t].items| != n {
          RaiseError(OpName(MapThread), "RangeCheck");
          return false;
        }
      }
      return true;
    }

    // ---- the end of a body ----

    /** The frame f lies on top of the slots base. */
    ghost predicate OnTop(base: seq<Slot>, f: Frame)
      reads this
    {
      f.Walk? && WellFormed(f) && f.pos >= |f.proc| && estack == base + Slots(f)
    }

    ghost predicate Exhausted(base: seq<Slot>, f: Frame, w: World)
      requires f.Walk? && WellFormed(f)
      reads this
    {
      W() == Exhaust(f, w).w && estack == base + Flat(Exhaust(f, w).push)
    }

    /** Writes the slot k places below the top, which lies in the top frame. */
    method SetE(k: nat, s: Slot, ghost base: seq<Slot>, ghost top: seq<Slot>)
      requires estack == base + top && k < |top|
      modifies this`estack
      ensures estack == base + top[|top| - 1 - k := s]
    {
      estack := estack[|estack| - 1 - k := s];
    }

    /** Removes the top frame. */
    method PopFrame(n: nat, ghost base: seq<Slot>, ghost top: seq<Slot>)
      requires estack == base + top && n == |top|
      modifies this`estack
      ensures estack == base
    {
      estack := estack[..|estack| - n];
    }

    method ExhaustRepeat(ghost base: seq<Slot>, ghost f: Frame)
      requires OnTop(base, f) && f.kind.KRepeat?
      modifies this
      ensures Exhausted(base, f, old(W()))
    {
      hide Slots, Flat, Exhaust, Peek, MarkerOf;
      ghost var top := Slots(f);
      RepeatRound(f, W());
      PeekTop(base, top);
      var lc := Peek(estack, 3).t.i;
      if lc > 0 {
        SetE(1, Tok(Int(0)), base, top);
        SetE(3, Tok(Int(lc - 1)), base, top[3 := Tok(Int(0))]);
      } else {
        PopFrame(5, base, top);
      }
    }

    method ExhaustFor(ghost base: seq<Slot>, ghost f: Frame)
      requires OnTop(base, f) && f.kind.KFor?
      modifies this
      ensures Exhausted(base, f, old(W()))
    {
      hide Slots, Flat, Exhaust, Peek, MarkerOf;
      ghost var top := Slots(f);
      ForRound(f, W());
      PeekTop(base, top);
      var counter, lim, inc := Peek(estack, 3).t.i, Peek(estack, 4).t.i, Peek(estack, 5).t.i;
      if (inc > 0 && counter <= lim) || (inc < 0 && counter >= lim) {
        SetE(1, Tok(Int(0)), base, top);
        PushO(Int(counter));
        SetE(3, Tok(Int(Wrap(counter + inc))), base, top[5 := Tok(Int(0))]);
      } else {
        PopFrame(7, base, top);
      }
    }

    method ExhaustForall(ghost base: seq<Slot>, ghost f: Frame)
      requires OnTop(base, f) && f.kind.KForall?
      modifies this
      ensures Exhausted(base, f, old(W()))
    {
      hide Slots, Flat, Exhaust, Peek, MarkerOf;
      ghost var top := Slots(f);
      ForallRound(f, W());
      PeekTop(base, top);
      var ad, idx := Peek(estack, 4).t.items, Peek(estack, 3).t.i;
      if 0 <= idx < |ad| {
        SetE(1, Tok(Int(0)), base, top);
        PushO(ad[idx]);
        SetE(3, Tok(Int(idx + 1)), base, top[4 := Tok(Int(0))]);
      } else {
        PopFrame(6, base, top);
      }
    }

    method ExhaustForallIndexed(ghost base: seq<Slot>, ghost f: Frame)
      requires OnTop(base, f) && f.kind.KForallIndexed?
      modifies this
      ensures Exhausted(base, f, old(W()))
    {
      hide Slots, Flat, Exhaust, Peek, MarkerOf;
      ghost var top := Slots(f);
      ForallIndexedRound(f, W());
      PeekTop(base, top);
      var ad, lim, count := Peek(estack, 5).t.items, Peek(estack, 4).t.i, Peek(estack, 3).t.i;
      if count < lim {
        SetE(1, Tok(Int(0)), base, top);
        PushO(ad[count]);
        PushO(Int(count));
        SetE(3, Tok(Int(count + 1)), base, top[5 := Tok(Int(0))]);
      } else {
        PopFrame(7, base, top);
      }
    }

    method ExhaustLoop(ghost base: seq<Slot>, ghost f: Frame)
      requires OnTop(base, f) && f.kind.KLoop?
      modifies this
      ensures Exhausted(base, f, old(W()))
    {
      LoopRound(f, W());
      hide Slots, Flat, Exhaust;
      SetE(1, Tok(Int(0)), base, Slots(f));
    }

    /** Map, MapIndexed and MapThread: check that the body left one result, write it back, and
        push the next arguments or deliver the array. */
    method ExhaustMapping(ghost base: seq<Slot>, ghost f: Frame)
      requires OnTop(base, f) && IsMap(f)
      modifies this
      ensures Exhausted(base, f, old(W()))
    {
      hide Slots, Flat, Exhaust, Peek, NextMap, Raise;
      ghost var top := Slots(f);
      MappingSlots(f);
      PeekTop(base, top);
      MappingExhausts(f, W());
      var m := Peek(estack, 0).m;
      var target, idx := Peek(estack, 4).t.items, Peek(estack, 3).t.i;
      var saved := Peek(estack, if m.IMapThread? then 6 else 5).t.i;
      if idx > 0 {
        if |ostack| != saved + 1 {
          MappingFails(f, W());
          RaiseError(INTERPRETER, "StackUnderflow");
          return;
        }
        target := target[idx - 1 := Pick(ostack, 0)];
        WrittenBack(f, target);
        SetE(4, Tok(Arr(target)), base, top);
        PopO(1);
      }
      NextMapping(base, f, target);
    }

    /** After the result has been written back. */
    method NextMapping(ghost base: seq<Slot>, ghost f: Frame, ghost target: seq<Token>)
      requires IsMap(f) && WellFormed(f) && |target| == |f.kind.target|
      requires OnTop(base, f.(kind := f.kind.(target := target))) && (f.kind.at < |target| || ostack != [])
      modifies this
      ensures
        var o := NextMap(f, old(W()), target);
        W() == o.w && estack == base + Flat(o.push)
    {
      hide Slots, Flat, Exhaust, Peek, MapArguments, MarkerOf;
      ghost var g := f.(kind := f.kind.(target := target));
      ghost var top := Slots(g);
      MappingSlots(g);
      PeekTop(base, top);
      MappingAdvances(g);
      FlatEmpty([]);
      ghost var k := f.kind.(target := target);
      assert NextMap(f, W(), target)
          == if k.at < |target| then Out(PushAll(W(), MapArguments(k)), [g.(pos := 0, kind := k.(at := k.at + 1))])
             else Out(Push(Drop(W(), 1), Arr(target)), []);
      hide NextMap;
      var m := Peek(estack, 0).m;
      var a, idx := Peek(estack, 4).t.items, Peek(estack, 3).t.i;
      if idx < |a| {
        SetE(1, Tok(Int(0)), base, top);
        PushArguments(m, a, idx, base, g.(pos := 0));
        SetE(3, Tok(Int(idx + 1)), base, top[|top| - 2 := Tok(Int(0))]);
      } else {
        ostack := ostack[|ostack| - 1 := Peek(estack, 4).t];
        PopFrame(if m.IMapThread? then 8 else 7, base, top);
      }
    }

    /** The arguments of one call of a map's body. */
    method PushArguments(m: Marker, a: seq<Token>, idx: nat, ghost base: seq<Slot>, ghost f: Frame)
      requires IsMap(f) && WellFormed(f) && estack == base + Slots(f)
      requires m == MarkerOf(f.kind) && a == f.kind.target && idx == f.kind.at < |a|
      modifies this`ostack
      ensures W() == PushAll(old(W()), MapArguments(f.kind))
    {
      MappingSlots(f);
      PeekTop(base, Slots(f));
      hide Slots, Peek;
      if m.IMapThread? {
        PushColumn(Peek(estack, 5).t.items, idx);
      } else {
        PushO(a[idx]);
        if m.IMapIndexed? { PushO(Int(idx + 1)); }
      }
    }

    method PushColumn(rows: seq<Token>, j: nat)
      requires forall r :: r in rows ==> r.Arr? && j < |r.items|
      modifies this`ostack
      ensures W() == PushAll(old(W()), Column(rows, j))
    {
      for i := 0 to |rows|
        invariant W() == PushAll(old(W()), Column(rows, j)[..i])
      {
        assert rows[i] in rows;
        ostack := ostack + [rows[i].items[j]];
        assert Column(rows, j)[..i] + [Column(rows, j)[i]] == Column(rows, j)[..i + 1];
      }
    }

    // ---- the dispatcher ----

    /** The slots and the world are those of the state s. */
    ghost predicate At(s: State)
      reads this
    {
      W() == s.w && estack == Flat(s.fs)
    }

    /** Calls a function whose own slot is gone from the execution stack. */
    method Call(op: Op, ghost fs: seq<Frame>)
      requires estack == Flat(fs) && AllResting(fs)
      modifies this
      ensures var s := Perform(op, old(W()), fs); W() == s.w && estack == Flat(s.fs)
    {
      if !Unwinds(op) {
        FlatAppend(fs, Operate(op, W()).push);
        assert Perform(op, W(), fs) == State(Operate(op, W()).w, fs + Operate(op, W()).push);
      }
      hide Flat, Perform, Operate, Resting, AllResting;
      match op
      case Pop => PopFunction();
      case Dup => DupFunction();
      case Exch => ExchFunction();
      case Add => ArithFunction(op);
      case Sub => ArithFunction(op);
      case If => IfFunction();
      case Ifelse => IfelseFunction();
      case Exec => ExecFunction();
      case Def => DefFunction();
      case Repeat => RepeatFunction();
      case For => ForFunction();
      case Forall => ForallFunction();
      case ForallIndexed => ForallIndexedFunction();
      case Loop => LoopFunction();
      case Map => MapFunction(op);
      case MapIndexed => MapFunction(op);
      case MapThread => MapThreadFunction();
      case Exit => ExitFunction(fs);
      case Return => ReturnFunction(fs);
      case Stop => StopFunction(fs);
      case Stopped => StoppedFunction();
    }

    /** The body on top has no more tokens; its marker says what comes next. */
    method ExhaustArm(ghost base: seq<Slot>, ghost f: Frame)
      requires OnTop(base, f)
      modifies this
      ensures Exhausted(base, f, old(W()))
    {
      ghost var o := Exhaust(f, W());
      assert f.kind.KProc? ==> o == Out(W(), []) && |Slots(f)| == 3 && Flat(o.push) == [];
      PeekTop(base, Slots(f));
      assert Peek(estack, 0) == Marked(MarkerOf(f.kind));
      MarkerTellsKind(f);
      hide Flat, Slots, Exhaust, MarkerOf, IsMap, Peek;
      match Peek(estack, 0).m
      case IIterate => PopFrame(3, base, Slots(f));
      case IRepeat => ExhaustRepeat(base, f);
      case IFor => ExhaustFor(base, f);
      case IForall => ExhaustForall(base, f);
      case IForallIndexed => ExhaustForallIndexed(base, f);
      case ILoop => ExhaustLoop(base, f);
      case IMap | IMapIndexed | IMapThread => ExhaustMapping(base, f);
    }

    /** The outer switch: one step of the reference machine, unless a body walk is on top. */
    method OuterSwitch(ghost s: State) returns (pc: Pc)
      requires At(s) && Inv(s) && s.fs != []
      modifies this
      ensures if Last(s.fs).Walk? then pc == BodyWalk && At(s)
              else
                var t := Step(!showBacktrace, s);
                At(t) && (pc.Outer? || (pc.BodyWalk? && t.fs != [] && Last(t.fs).Walk?))
    {
      TopSlot(s.fs);
      if Peek(estack, 0).Marked? { return BodyWalk; }
      pc := DispatchToken(Init(s.fs), Peek(estack, 0).t);
      StepKeepsInv(!showBacktrace, s);
    }

    method DispatchToken(ghost rest: seq<Frame>, t: Token) returns (pc: Pc)
      requires estack == Flat(rest) + [Tok(t)] && AllResting(rest)
      modifies this
      ensures var s := Dispatch(old(W()), rest, t); W() == s.w && estack == Flat(s.fs)
      ensures pc.Outer? || (pc.BodyWalk? && t.Proc?)
    {
      hide Flat, Perform, Find, Raise, Executable;
      pc := Outer;
      if t.Nam? {
        DispatchName(rest, t.name);
      } else if t.Proc? {
        FlatSnoc(rest, Walk(KProc, t.items, 0));
        PushE(Tok(Int(0)));
        PushE(Marked(IIterate));
        pc := BodyWalk;
      } else if t.Func? {
        assert Dispatch(W(), rest, t) == Perform(t.op, W(), rest);
        hide Dispatch;
        PopE(1);
        Call(t.op, rest);
      } else {
        PushO(if t.LitProc? then Proc(t.items) else t);
        PopE(1);
      }
    }

    method DispatchName(ghost rest: seq<Frame>, n: Name)
      requires estack == Flat(rest) + [Tok(Nam(n))]
      modifies this
      ensures var s := Dispatch(old(W()), rest, Nam(n)); W() == s.w && estack == Flat(s.fs)
    {
      match Find(W(), n)
      case None =>
        FlatTwo(rest, TokF(Nam(n)), STOP);
        RaiseError(INTERPRETER, "UndefinedName");
      case Some(v) =>
        if Executable(v) {
          FlatSnoc(rest, TokF(v));
          estack := estack[|estack| - 1 := Tok(v)];
        } else {
          PushO(v);
          PopE(1);
        }
    }

    /** Beneath a scheduled `stop` the reference machine still holds the name that was not
        found; the object does not. */
    ghost predicate Trails(s: State)
      reads this
    {
      && W() == s.w
      && exists pre: seq<Frame>, x: Name ::
           s.fs == pre + [TokF(Nam(x)), STOP] && x != ISTOPPED && estack == Flat(pre + [STOP])
    }

    /** The object is where the reference machine is, and at this label. */
    ghost predicate Follows(s: State, pc: Pc)
      reads this
    {
      && (At(s) || (pc.Outer? && Trails(s)))
      && (pc.BodyWalk? || pc.BodyExhausted? ==> s.fs != [] && Last(s.fs).Walk?)
      && (pc.BodyExhausted? ==> Last(s.fs).pos >= |Last(s.fs).proc|)
    }

    /** Whether the body on top has a token at its position. */
    method BodyGoesOn(ghost rest: seq<Frame>, ghost f: Frame) returns (b: bool)
      requires f.Walk? && f.pos >= 0 && estack == Flat(rest + [f])
      ensures b <==> f.pos < |f.proc|
    {
      hide *;
      TopWalkOn(rest, f);
      b := Peek(estack, 1).t.i < |Peek(estack, 2).t.items|;
    }

    /** Fetches the next token and deals with it: k steps of the reference machine. */
    method BodyWalkArm(ghost rest: seq<Frame>, ghost f: Frame) returns (pc: Pc, ghost k: nat)
      requires f.Walk? && 0 <= f.pos < |f.proc| && estack == Flat(rest + [f]) && Inv(State(W(), rest + [f]))
      requires Find(W(), ISTOPPED).Some?
      modifies this
      ensures
        var s := State(old(W()), rest + [f]);
        && Follows(Run(!showBacktrace, s, k), pc) && k > 0
        && Run(!showBacktrace, s, k - 1).fs != []
    {
      hide Flat, Slots, MarkerOf, Peek, Inv, Run, Find, Follows, WellFormed, Lookup, Executable;
      TopWalkOn(rest, f);
      MovePosition(rest, f, f.pos + 1);
      var pos, proc := Peek(estack, 1).t.i, Peek(estack, 2).t.items;
      estack := estack[|estack| - 2 := Tok(Int(pos + 1))];
      pc, k := WalkMoved(rest, f, proc[pos], pos + 1 < |proc|);
    }

    /** The position cell already stands behind t. */
    method WalkMoved(ghost rest: seq<Frame>, ghost f: Frame, t: Token, more: bool) returns (pc: Pc, ghost k: nat)
      requires f.Walk? && 0 <= f.pos < |f.proc| && t == f.proc[f.pos] && (more <==> f.pos + 1 < |f.proc|)
      requires estack == Flat(rest + [f.(pos := f.pos + 1)]) && Inv(State(W(), rest + [f]))
      requires Find(W(), ISTOPPED).Some?
      modifies this
      ensures
        var s := State(old(W()), rest + [f]);
        && Follows(Run(!showBacktrace, s, k), pc) && k > 0
        && Run(!showBacktrace, s, k - 1).fs != []
    {
      hide *;
      TailCallMeans(f);
      TopWalkOn(rest, f.(pos := f.pos + 1));
      if !more && Executable(t) && Peek(estack, 0) == Marked(IIterate) && !showBacktrace {
        WalkTail(rest, f, t);
        return Outer, 1;
      }
      pc, k := WalkKept(rest, f, t, more);
    }

    /** The frame stays, under what the token does. */
    method WalkKept(ghost rest: seq<Frame>, ghost f: Frame, t: Token, more: bool) returns (pc: Pc, ghost k: nat)
      requires f.Walk? && 0 <= f.pos < |f.proc| && t == f.proc[f.pos] && (more <==> f.pos + 1 < |f.proc|)
      requires estack == Flat(rest + [f.(pos := f.pos + 1)]) && Inv(State(W(), rest + [f]))
      requires Find(W(), ISTOPPED).Some? && !(!showBacktrace && TailCall(f))
      modifies this
      ensures
        var s := State(old(W()), rest + [f]);
        && Follows(Run(!showBacktrace, s, k), pc) && k > 0
        && Run(!showBacktrace, s, k - 1).fs != []
    {
      ghost var w, fs := W(), rest + [f.(pos := f.pos + 1)];
      assert Last(fs) == f.(pos := f.pos + 1);
      hide *;
      RestingBelow(w, rest, f);
      pc, k := WalkToken(fs, t, more);
      WalkRuns(!showBacktrace, w, rest, f, k);
    }

    /** The last token takes the place of the procedure's frame. */
    method WalkTail(ghost rest: seq<Frame>, ghost f: Frame, t: Token)
      requires f.Walk? && 0 <= f.pos < |f.proc| && t == f.proc[f.pos] && TailCall(f)
      requires estack == Flat(rest + [f.(pos := f.pos + 1)]) && Inv(State(W(), rest + [f]))
      requires !showBacktrace
      modifies this
      ensures
        var s := State(old(W()), rest + [f]);
        Follows(Run(true, s, 1), Outer) && Run(true, s, 0).fs != []
    {
      ReplaceByTail(rest, f.(pos := f.pos + 1), t);
      TailStarts(W(), rest, f);
      hide Flat, Slots, Run, Inv;
      estack := estack[|estack| - 3 := Tok(t)];
      PopE(2);
    }

    /** One token of a body, fetched by a walk whose frame stays on top. */
    method WalkToken(ghost fs: seq<Frame>, t: Token, more: bool) returns (pc: Pc, ghost k: nat)
      requires estack == Flat(fs) && AllResting(fs) && fs != [] && Last(fs).Walk?
      requires more <==> Last(fs).pos < |Last(fs).proc|
      requires Find(W(), ISTOPPED).Some?
      modifies this
      ensures 1 <= k <= 3 && (k == 3 ==> t.Nam? && Found(old(W()), t.name))
      ensures Follows(AfterFetch(old(W()), fs, t, k), pc)
    {
      FlatToken(fs, t);
      hide Flat, Slots;
      var pushed := if more then BodyWalk else BodyExhausted;
      if !Executable(t) {
        PushO(t);
        return pushed, 2;
      }
      if t.Func? {
        Call(t.op, fs);
        return ResumeIter, 2;
      }
      if t.Nam? {
        pc, k := WalkName(fs, t.name);
        return;
      }
      if t.LitProc? {
        PushO(Proc(t.items));
        return pushed, 2;
      }
      PushE(Tok(t));
      return Outer, 1;
    }

    /** A name in a body is resolved in place. */
    method WalkName(ghost fs: seq<Frame>, n: Name) returns (pc: Pc, ghost k: nat)
      requires estack == Flat(fs) && AllResting(fs) && fs != [] && Last(fs).Walk?
      requires Find(W(), ISTOPPED).Some?
      modifies this
      ensures 1 <= k <= 3 && (k == 3 ==> Found(old(W()), n))
      ensures Follows(AfterFetch(old(W()), fs, Nam(n), k), pc)
    {
      hide Flat, Slots;
      match Find(W(), n)
      case None =>
        FlatToken(fs, Func(Stop));
        RaiseError(INTERPRETER, "UndefinedName");
        return Outer, 2;
      case Some(v) =>
        if v.Func? {
          Call(v.op, fs);
          return ResumeIter, 3;
        }
        if Executable(v) {
          FlatToken(fs, v);
          PushE(Tok(v));
          return Outer, 2;
        }
        PushO(v);
        return BodyWalk, 2;
    }

    /** The end of a body: one step of the reference machine. */
    method Finish(ghost rest: seq<Frame>, ghost f: Frame)
      requires f.Walk? && f.pos >= |f.proc| && At(State(W(), rest + [f])) && Inv(State(W(), rest + [f]))
      modifies this
      ensures At(Run(!showBacktrace, State(old(W()), rest + [f]), 1))
    {
      ghost var s := State(W(), rest + [f]);
      assert f in s.fs;
      FlatSnoc(rest, f);
      StepOn(!showBacktrace, W(), rest, f);
      RunOne(!showBacktrace, s);
      FlatAppend(rest, Exhaust(f, W()).push);
      hide Flat, Slots, Exhaust, Inv, Run, WellFormed;
      ExhaustArm(Flat(rest), f);
    }

    /** After a function or the end of a body: is a walk on top? */
    method ResumeLabel(ghost s: State) returns (pc: Pc)
      requires Follows(s, ResumeIter) && Inv(s)
      ensures Follows(Run(!showBacktrace, s, 0), pc) && (pc.Outer? || pc.BodyWalk?)
    {
      FlatEmpty(s.fs);
      if s.fs != [] { TopSlot(s.fs); }
      RunNothing(!showBacktrace, s);
      hide Flat, Slots, Run, Inv;
      pc := if estack != [] && Peek(estack, 0).Marked? then BodyWalk else Outer;
    }

    /** The outer switch, where the object may trail the reference machine by a name. */
    method Redispatch(ghost s: State) returns (pc: Pc, ghost k: nat)
      requires Follows(s, Outer) && Inv(s) && estack != []
      modifies this
      ensures (pc.Outer? && k == 1) || (pc.BodyWalk? && k <= 1)
      ensures Follows(Run(!showBacktrace, s, k), pc)
      ensures Unended(!showBacktrace, s, k)
    {
      RunNothing(!showBacktrace, s);
      RunOne(!showBacktrace, s);
      ghost var a := s;
      if !At(s) {
        ghost var pre, x :| s.fs == pre + [TokF(Nam(x)), STOP] && x != ISTOPPED && estack == Flat(pre + [STOP]);
        TrailEnds(!showBacktrace, s.w, pre, x);
        a := State(s.w, pre + [STOP]);
      }
      FlatEmpty(a.fs);
      hide Flat, Slots, Inv, Run, Step;
      pc := OuterSwitch(a);
      k := if Last(a.fs).Walk? then 0 else 1;
    }

    /** One turn at the given label. */
    method Advance(pc: Pc, ghost s: State) returns (next: Pc, ghost k: nat)
      requires Follows(s, pc) && Inv(s) && Find(s.w, ISTOPPED).Some?
      requires pc.Outer? ==> estack != []
      modifies this
      ensures Follows(Run(!showBacktrace, s, k), next)
      ensures 1 + Rank(pc) <= 4 * k + Rank(next)
      ensures Unended(!showBacktrace, s, k)
    {
      hide Follows, Inv, Run;
      match pc
      case Outer => next, k := Redispatch(s);
      case BodyWalk => next, k := WalkLabel(s);
      case BodyExhausted =>
        FinishLabel(s);
        next, k := ResumeIter, 1;
      case ResumeIter =>
        next := ResumeLabel(s);
        k := 0;
    }

    method WalkLabel(ghost s: State) returns (next: Pc, ghost k: nat)
      requires Follows(s, BodyWalk) && Inv(s) && Find(s.w, ISTOPPED).Some?
      modifies this
      ensures Follows(Run(!showBacktrace, s, k), next)
      ensures k > 0 || next.BodyExhausted?
      ensures Unended(!showBacktrace, s, k)
    {
      ghost var rest, f := Init(s.fs), Last(s.fs);
      assert s == State(W(), rest + [f]) && f in s.fs && f.pos >= 0;
      RunNothing(!showBacktrace, s);
      hide Inv, Run, Find, Flat;
      var b := BodyGoesOn(rest, f);
      if b {
        hide Follows;
        next, k := BodyWalkArm(rest, f);
      } else {
        next, k := BodyExhausted, 0;
      }
    }

    method FinishLabel(ghost s: State)
      requires Follows(s, BodyExhausted) && Inv(s)
      modifies this
      ensures Follows(Run(!showBacktrace, s, 1), ResumeIter) && Run(!showBacktrace, s, 0).fs != []
    {
      assert s == State(W(), Init(s.fs) + [Last(s.fs)]);
      RunNothing(!showBacktrace, s);
      hide Inv, Run, Flat;
      Finish(Init(s.fs), Last(s.fs));
    }

    /** One turn of the dispatcher, seen from the start of the run. */
    method Turn(pc: Pc, ghost s0: State, ghost n: nat) returns (next: Pc, ghost m: nat)
      requires Inv(s0) && Find(s0.w, ISTOPPED).Some?
      requires Follows(Run(!showBacktrace, s0, n), pc) && Unended(!showBacktrace, s0, n)
      requires pc.Outer? ==> estack != []
      modifies this
      ensures Follows(Run(!showBacktrace, s0, m), next) && Unended(!showBacktrace, s0, m)
      ensures 1 + Rank(pc) + 4 * n <= 4 * m + Rank(next)
    {
      hide *;
      RunKeepsBinding(!showBacktrace, s0, n, ISTOPPED);
      ghost var k;
      next, k := Advance(pc, Run(!showBacktrace, s0, n));
      RunGoesOn(!showBacktrace, s0, n, k);
      m := n + k;
    }

    lemma StartIsFollowed(s: State)
      requires At(s) && Inv(s)
      ensures Follows(Run(!showBacktrace, s, 0), Outer) && Unended(!showBacktrace, s, 0)
    {
      RunNothing(!showBacktrace, s);
    }

    lemma EmptyIsHalted(s: State)
      requires Follows(s, Outer) && estack == []
      ensures s == State(W(), [])
    {}

    lemma Finished(s0: State, n: nat)
      requires Inv(s0) && Follows(Run(!showBacktrace, s0, n), Outer) && estack == []
      ensures HaltsWith(!showBacktrace, s0, W())
      ensures showBacktrace || T.NeverReturnsFromDone(s0) ==> HaltsWith(false, s0, W())
    {
      EmptyIsHalted(Run(!showBacktrace, s0, n));
      HaltsNow(!showBacktrace, s0, n, W());
      hide HaltsWith;
      if T.NeverReturnsFromDone(s0) { T.TailCallsPreserveMeaning(s0, W()); }
    }

    /** Runs until the execution stack is empty, or until the fuel is gone; n counts the steps
        that the reference machine takes meanwhile. */
    method ExecuteDispatch(fuel: nat, ghost s0: State) returns (done: bool, ghost n: nat, ghost pc: Pc)
      requires At(s0) && Inv(s0) && Find(s0.w, ISTOPPED).Some?
      modifies this
      ensures Follows(Run(!showBacktrace, s0, n), pc)
      ensures done ==> estack == [] && HaltsWith(!showBacktrace, s0, W())
      ensures Suffices(!showBacktrace, s0, fuel) ==> done
      ensures done && (showBacktrace || T.NeverReturnsFromDone(s0)) ==> HaltsWith(false, s0, W())
    {
      var at, left := Outer, fuel;
      n := 0;
      StartIsFollowed(s0);
      hide *;
      while left > 0 && !(at.Outer? && estack == [])
        invariant Follows(Run(!showBacktrace, s0, n), at)
        invariant fuel - left + 1 <= 4 * n + Rank(at) && left <= fuel
        invariant Unended(!showBacktrace, s0, n)
      {
        at, n := Turn(at, s0, n);
        left := left - 1;
      }
      pc := at;
      done := at.Outer? && estack == [];
      if done { Finished(s0, n); } else { StillRunning(!showBacktrace, s0, n, fuel); }
    }
  }

  lemma TailCallMeans(f: Frame)
    requires f.Walk? && 0 <= f.pos < |f.proc|
    ensures TailCall(f)
        <==> f.pos + 1 == |f.proc| && Executable(f.proc[f.pos]) && MarkerOf(f.kind).IIterate?
  {}

  lemma StopPerforms(w: World, fs: seq<Frame>)
    ensures
      var target := UnwindStopped(fs);
      Perform(Stop, w, fs) == if target.Some? then State(Push(w, Bool(true)), target.value) else State(w, [])
  {}

  lemma ReturnPerforms(w: World, fs: seq<Frame>)
    ensures
      var target := UnwindReturn(fs, false);
      Perform(Return, w, fs) == if target.Some? then State(w, target.value)
        else State(Raise(w, OpName(Return), "InvalidReturn"), fs + [STOP])
  {}

  /** Where the dispatcher is: at the outer switch or at one of its labels. */
  datatype Pc = Outer | BodyWalk | BodyExhausted | ResumeIter

  /** The run ends, and there are more than four turns for each of its steps. */
  ghost predicate Suffices(tco: bool, s: State, fuel: nat)
    requires Inv(s)
  {
    exists m: nat :: Run(tco, s, m).fs == [] && fuel > 4 * m + 3
  }

  lemma HaltsNow(tco: bool, s: State, n: nat, w: World)
    requires Inv(s) && Run(tco, s, n) == State(w, [])
    ensures HaltsWith(tco, s, w)
  {}

  lemma StillRunning(tco: bool, s: State, n: nat, fuel: nat)
    requires Inv(s) && fuel <= 4 * n + 3 && Unended(tco, s, n)
    ensures !Suffices(tco, s, fuel)
  {
    forall m: nat | Run(tco, s, m).fs == [] ensures fuel <= 4 * m + 3 {
      if m < n { HaltedBefore(tco, s, m, n - 1); }
    }
  }

  /** The run had not ended before its last step. */
  ghost predicate Unended(tco: bool, s: State, n: nat)
    requires Inv(s)
  {
    n > 0 ==> Run(tco, s, n - 1).fs != []
  }

  lemma RunGoesOn(tco: bool, s: State, n: nat, k: nat)
    requires Inv(s) && Unended(tco, s, n) && Unended(tco, Run(tco, s, n), k)
    ensures Run(tco, s, n + k) == Run(tco, Run(tco, s, n), k)
    ensures Unended(tco, s, n + k)
  {
    hide Run, Inv;
    RunSplits(tco, s, n, k);
    if k > 0 { RunSplits(tco, s, n, k - 1); }
  }

  /** The name left under `stop` makes no difference to what `stop` does. */
  lemma TrailEnds(tco: bool, w: World, pre: seq<Frame>, x: Name)
    requires Inv(State(w, pre + [TokF(Nam(x)), STOP])) && x != ISTOPPED
    ensures Inv(State(w, pre + [STOP]))
    ensures Step(tco, State(w, pre + [STOP])) == Step(tco, State(w, pre + [TokF(Nam(x)), STOP]))
    ensures Last(pre + [STOP]) == STOP
  {
    var named := pre + [TokF(Nam(x))];
    assert pre + [TokF(Nam(x)), STOP] == named + [STOP];
    forall i | 0 <= i < |pre| ensures Resting(pre[i]) {
      assert (named + [STOP])[i] == pre[i];
    }
    StepOn(tco, w, pre, STOP);
    StepOn(tco, w, named, STOP);
    assert Init(named) == pre && Last(named) != SENTINEL;
  }

  /** How many turns may pass until the reference machine steps: see `Advance`. */
  function Rank(pc: Pc): (r: nat)
    ensures r <= 3
  {
    match pc
    case ResumeIter => 0
    case Outer => 1
    case BodyWalk => 2
    case BodyExhausted => 3
  }

  /** The name is bound to something that runs. */
  predicate Found(w: World, n: Name) {
    Find(w, n).Some? && Executable(Find(w, n).value)
  }

  /** The reference machine k steps after it began to fetch t, with the walk's frame kept. */
  function AfterFetch(w: World, fs: seq<Frame>, t: Token, k: nat): State
    requires k == 3 ==> t.Nam? && Found(w, t.name)
  {
    if k <= 1 then State(w, fs + [TokF(t)])
    else if k == 2 then Dispatch(w, fs, t)
    else Dispatch(w, fs, if k == 3 then Find(w, t.name).value else t)
  }

  lemma RestingBelow(w: World, rest: seq<Frame>, f: Frame)
    requires Inv(State(w, rest + [f])) && f.Walk?
    ensures f.pos >= 0 && AllResting(rest + [f.(pos := f.pos + 1)])
  {
    var s := State(w, rest + [f]);
    assert f in s.fs;
    forall g | g in rest + [f.(pos := f.pos + 1)] ensures Resting(g) {
      if g in rest {
        var i :| 0 <= i < |rest| && rest[i] == g;
        assert s.fs[i] == g;
      }
    }
  }

  lemma WalkRuns(tco: bool, w: World, rest: seq<Frame>, f: Frame, k: nat)
    requires Inv(State(w, rest + [f])) && f.Walk? && 0 <= f.pos < |f.proc| && !(tco && TailCall(f))
    requires 1 <= k <= 3 && (k == 3 ==> f.proc[f.pos].Nam? && Found(w, f.proc[f.pos].name))
    ensures
      var s := State(w, rest + [f]);
      && Run(tco, s, k) == AfterFetch(w, rest + [f.(pos := f.pos + 1)], f.proc[f.pos], k)
      && Run(tco, s, k - 1).fs != []
  {
    var s, fs, t := State(w, rest + [f]), rest + [f.(pos := f.pos + 1)], f.proc[f.pos];
    assert Run(tco, s, 0) == s;
    hide Run, Inv, Perform, Operate;
    WalkFetches(tco, w, rest, f);
    if k >= 2 {
      RunLast(tco, s, 1);
      StepOn(tco, w, fs, TokF(t));
    }
    if k == 3 {
      RunLast(tco, s, 2);
      StepOn(tco, w, fs, TokF(Find(w, t.name).value));
    }
  }

  lemma WalkFetches(tco: bool, w: World, rest: seq<Frame>, f: Frame)
    requires Inv(State(w, rest + [f])) && f.Walk? && 0 <= f.pos < |f.proc| && !(tco && TailCall(f))
    ensures Run(tco, State(w, rest + [f]), 1) == State(w, rest + [f.(pos := f.pos + 1)] + [TokF(f.proc[f.pos])])
  {
    var s, g, t := State(w, rest + [f]), f.(pos := f.pos + 1), TokF(f.proc[f.pos]);
    assert f in s.fs;
    StepOn(tco, w, rest, f);
    RunOne(tco, s);
    assert rest + [g, t] == rest + [g] + [t];
  }

  lemma TailStarts(w: World, rest: seq<Frame>, f: Frame)
    requires Inv(State(w, rest + [f])) && f.Walk? && 0 <= f.pos < |f.proc| && TailCall(f)
    ensures
      var s := State(w, rest + [f]);
      Run(true, s, 1) == State(w, rest + [TokF(f.proc[f.pos])]) && Run(true, s, 0) == s
  {}
}
