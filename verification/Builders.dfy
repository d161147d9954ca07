/** What the frame builders push and what the end of a body does, slot by slot. */
module FrameBuilders {
  import opened Tokens
  import opened Machine
  import opened Layout

  /** The first slots from the top are those of the top frame. */
  lemma PeekTop(base: seq<Slot>, top: seq<Slot>)
    ensures forall k: nat :: k < |top| ==> Peek(base + top, k) == top[|top| - 1 - k]
  {
  }

  lemma FlatFailure()
    ensures Flat([STOP]) == [Tok(Func(Stop))] && Flat([]) == []
  {}

  datatype Tag = TInt | TBool | TLit | TArr | TProc

  predicate HasTag(t: Token, tag: Tag) {
    match tag
    case TInt => t.Int?
    case TBool => t.Bool?
    case TLit => t.Lit?
    case TArr => t.Arr?
    case TProc => t.Proc?
  }

  predicate Typed(s: seq<Token>, tags: seq<Tag>)
    requires |tags| <= |s|
  {
    forall k: nat :: k < |tags| ==> HasTag(Pick(s, k), tags[k])
  }

  lemma TypedTwo(s: seq<Token>, a: Tag, b: Tag)
    requires |s| >= 2
    ensures Typed(s, [a, b]) <==> HasTag(Pick(s, 0), a) && HasTag(Pick(s, 1), b)
  {}

  lemma TypedFour(s: seq<Token>, a: Tag, b: Tag, c: Tag, d: Tag)
    requires |s| >= 4
    ensures Typed(s, [a, b, c, d]) <==>
            HasTag(Pick(s, 0), a) && HasTag(Pick(s, 1), b) && HasTag(Pick(s, 2), c) && HasTag(Pick(s, 3), d)
  {}

  lemma BuildsFor(w: World)
    ensures
      var o := Operate(For, w);
      if |w.ost| < 4 then o == Fail(w, OpName(For), "StackUnderflow")
      else if !Typed(w.ost, [TProc, TInt, TInt, TInt]) then o == Fail(w, OpName(For), "TypeMismatch")
      else
        && o.w == Drop(w, 4)
        && Flat(o.push) == [Tok(Mark), Tok(Pick(w.ost, 2)), Tok(Pick(w.ost, 1)), Tok(Pick(w.ost, 3)),
                            Tok(Pick(w.ost, 0)), Tok(Int(|Pick(w.ost, 0).items|)), Marked(IFor)]
  {
    if |w.ost| >= 4 {
      TypedFour(w.ost, TProc, TInt, TInt, TInt);
      hide Typed, Fail, Raise, Drop;
      if Typed(w.ost, [TProc, TInt, TInt, TInt]) {
        var p := Pick(w.ost, 0).items;
        FlatOne(Walk(KFor(Pick(w.ost, 2).i, Pick(w.ost, 1).i, Pick(w.ost, 3).i), p, |p|));
      }
    }
  }

  lemma BuildsLoop(w: World)
    ensures
      var o := Operate(Loop, w);
      if |w.ost| < 1 then o == Fail(w, OpName(Loop), "StackUnderflow")
      else if !HasTag(Pick(w.ost, 0), TProc) then o == Fail(w, OpName(Loop), "TypeMismatch")
      else
        && o.w == Drop(w, 1)
        && Flat(o.push) == [Tok(Mark), Tok(Pick(w.ost, 0)), Tok(Int(0)), Marked(ILoop)]
  {
    hide Fail, Raise, Drop;
    if |w.ost| >= 1 && HasTag(Pick(w.ost, 0), TProc) {
      FlatOne(Walk(KLoop, Pick(w.ost, 0).items, 0));
    }
  }

  lemma BuildsRepeat(w: World)
    ensures
      var o := Operate(Repeat, w);
      if |w.ost| < 2 then o == Fail(w, OpName(Repeat), "StackUnderflow")
      else if !Typed(w.ost, [TProc, TInt]) then o == Fail(w, OpName(Repeat), "TypeMismatch")
      else
        && o.w == Drop(w, 2)
        && Flat(o.push) == [Tok(Mark), Tok(Pick(w.ost, 1)), Tok(Pick(w.ost, 0)),
                            Tok(Int(|Pick(w.ost, 0).items|)), Marked(IRepeat)]
  {
    if |w.ost| >= 2 {
      TypedTwo(w.ost, TProc, TInt);
      hide Typed, Fail, Raise, Drop;
      if Typed(w.ost, [TProc, TInt]) {
        FlatOne(Walk(KRepeat(Pick(w.ost, 1).i), Pick(w.ost, 0).items, |Pick(w.ost, 0).items|));
      }
    }
  }

  lemma ForallSlots(items: seq<Token>, p: seq<Token>)
    ensures Flat([Walk(KForall(items, 0), p, |p|)]) ==
            [Tok(Mark), Tok(Arr(items)), Tok(Int(0)), Tok(Proc(p)), Tok(Int(|p|)), Marked(IForall)]
  {}

  lemma BuildsForall(w: World)
    ensures
      var o := Operate(Forall, w);
      if |w.ost| < 2 then o == Fail(w, OpName(Forall), "StackUnderflow")
      else
        var a, c := Pick(w.ost, 0), Pick(w.ost, 1);
        if !a.Proc? || !(c.Arr? || c.Proc? || c.LitProc?) then o == Fail(w, OpName(Forall), "ArgumentType")
        else
          && o.w == Drop(w, 2)
          && Flat(o.push) == [Tok(Mark), Tok(Arr(c.items)), Tok(Int(0)), Tok(a),
                              Tok(Int(|a.items|)), Marked(IForall)]
  {
    hide Fail, Raise, Drop;
    assert |w.ost| >= 2 ==> Operate(Forall, w) == OperateForall(Forall, w);
    hide Operate, Flat, Slots;
    if |w.ost| >= 2 {
      var a, c := Pick(w.ost, 0), Pick(w.ost, 1);
      if a.Proc? && (c.Arr? || c.Proc? || c.LitProc?) {
        ForallSlots(c.items, a.items);
      }
    }
  }

  lemma ForallIndexedSlots(items: seq<Token>, p: seq<Token>)
    ensures Flat([Walk(KForallIndexed(items, |items|, 0), p, |p|)]) ==
            [Tok(Mark), Tok(Arr(items)), Tok(Int(|items|)), Tok(Int(0)), Tok(Proc(p)), Tok(Int(|p|)),
             Marked(IForallIndexed)]
  {}

  lemma BuildsForallIndexed(w: World)
    ensures
      var o := Operate(ForallIndexed, w);
      if |w.ost| < 2 then o == Fail(w, OpName(ForallIndexed), "StackUnderflow")
      else
        var a, c := Pick(w.ost, 0), Pick(w.ost, 1);
        if !a.Proc? || !c.Arr? then o == Fail(w, OpName(ForallIndexed), "ArgumentType")
        else
          && o.w == Drop(w, 2)
          && Flat(o.push) == [Tok(Mark), Tok(c), Tok(Int(|c.items|)), Tok(Int(0)), Tok(a),
                              Tok(Int(|a.items|)), Marked(IForallIndexed)]
  {
    hide Fail, Raise, Drop;
    assert |w.ost| >= 2 ==> Operate(ForallIndexed, w) == OperateForall(ForallIndexed, w);
    hide Operate, Flat, Slots;
    if |w.ost| >= 2 {
      var a, c := Pick(w.ost, 0), Pick(w.ost, 1);
      if a.Proc? && c.Arr? {
        ForallIndexedSlots(c.items, a.items);
      }
    }
  }

  lemma MapSlots(indexed: bool, saved: int, src: seq<Token>, p: seq<Token>)
    ensures Flat([Walk(KMap(indexed, saved, src, 0), p, |p|)]) ==
            [Tok(Mark), Tok(Int(saved)), Tok(Arr(src)), Tok(Int(0)), Tok(Proc(p)), Tok(Int(|p|)),
             Marked(if indexed then IMapIndexed else IMap)]
  {}

  /** The seven slots of a Map frame, from the mark to the marker. */
  function MapFrame(indexed: bool, saved: int, src: Token, proc: Token): seq<Slot>
    requires proc.Proc?
  {
    [
      Tok(Mark),
      Tok(Int(saved)),
      Tok(src),
      Tok(Int(0)),
      Tok(proc),
      Tok(Int(|proc.items|)),
      Marked(if indexed then IMapIndexed else IMap)
    ]
  }

  lemma BuildsMap(op: Op, w: World)
    requires op.Map? || op.MapIndexed?
    ensures
      var o := Operate(op, w);
      if |w.ost| < 2 then o == Fail(w, OpName(op), "StackUnderflow")
      else if !Typed(w.ost, [TProc, TArr]) then o == Fail(w, OpName(op), "TypeMismatch")
      else if Pick(w.ost, 0).items == [] || Pick(w.ost, 1).items == [] then o == Out(Drop(w, 1), [])
      else
        && o.w == Drop(w, 1)
        && Flat(o.push) == MapFrame(op.MapIndexed?, |w.ost| - 1, Pick(w.ost, 1), Pick(w.ost, 0))
  {
    if |w.ost| >= 2 {
      TypedTwo(w.ost, TProc, TArr);
      hide Typed, Fail, Raise, Drop;
      assert Typed(w.ost, [TProc, TArr]) ==> Operate(op, w) == OperateMap(op, w);
      assert !Typed(w.ost, [TProc, TArr]) ==> Operate(op, w) == Fail(w, OpName(op), "TypeMismatch");
      hide Operate;
      if Typed(w.ost, [TProc, TArr]) {
        var p, src := Pick(w.ost, 0).items, Pick(w.ost, 1).items;
        MapSlots(op.MapIndexed?, |w.ost| - 1, src, p);
      }
    }
  }

  lemma MapThreadSlots(saved: int, rows: seq<Token>, first: seq<Token>, p: seq<Token>)
    ensures Flat([Walk(KMapThread(saved, rows, first, 0), p, |p|)]) ==
            [Tok(Mark), Tok(Int(saved)), Tok(Arr(rows)), Tok(Arr(first)), Tok(Int(0)), Tok(Proc(p)),
             Tok(Int(|p|)), Marked(IMapThread)]
  {}

  lemma BuildsMapThread(w: World)
    ensures
      var o := Operate(MapThread, w);
      if |w.ost| < 2 then o == Fail(w, OpName(MapThread), "StackUnderflow")
      else if !Typed(w.ost, [TProc, TArr]) then o == Fail(w, OpName(MapThread), "TypeMismatch")
      else
        var p, outer := Pick(w.ost, 0).items, Pick(w.ost, 1).items;
        if outer == [] then o == Out(Drop(w, 1), [])
        else if !outer[0].Arr? then o == Fail(w, OpName(MapThread), "ArgumentType")
        else
          var first := outer[0].items;
          if RowError(outer, |first|).Some? then
            o == Fail(w, OpName(MapThread), RowError(outer, |first|).value)
          else if p == [] || first == [] then o == Out(Drop(w, 1), [])
          else
            && o.w == Drop(w, 1)
            && Flat(o.push) == [Tok(Mark), Tok(Int(|w.ost| - 1)), Tok(Pick(w.ost, 1)), Tok(Arr(first)),
                                Tok(Int(0)), Tok(Pick(w.ost, 0)), Tok(Int(|p|)), Marked(IMapThread)]
  {
    if |w.ost| >= 2 {
      TypedTwo(w.ost, TProc, TArr);
      hide Typed, Fail, Raise, Drop, RowError;
      assert Typed(w.ost, [TProc, TArr]) ==> Operate(MapThread, w) == OperateMap(MapThread, w);
      assert !Typed(w.ost, [TProc, TArr]) ==>
          Operate(MapThread, w) == Fail(w, OpName(MapThread), "TypeMismatch");
      hide Operate, Slots, Flat;
      if Typed(w.ost, [TProc, TArr]) {
        var p, outer := Pick(w.ost, 0).items, Pick(w.ost, 1).items;
        if outer != [] && outer[0].Arr? {
          MapThreadSlots(|w.ost| - 1, outer, outer[0].items, p);
        }
      }
    }
  }

  // ---- the end of a body ----

  lemma RepeatRound(f: Frame, w: World)
    requires f.Walk? && f.kind.KRepeat? && WellFormed(f)
    ensures
      var top, o := Slots(f), Exhaust(f, w);
      && |top| == 5 && top[1] == Tok(Int(f.kind.left))
      && o.w == w
      && Flat(o.push) == if f.kind.left > 0 then top[3 := Tok(Int(0))][1 := Tok(Int(f.kind.left - 1))] else []
  {}

  lemma ForRound(f: Frame, w: World)
    requires f.Walk? && f.kind.KFor? && WellFormed(f)
    ensures
      var k, top, o := f.kind, Slots(f), Exhaust(f, w);
      var more := (k.inc > 0 && k.counter <= k.lim) || (k.inc < 0 && k.counter >= k.lim);
      && |top| == 7 && top[1] == Tok(Int(k.inc)) && top[2] == Tok(Int(k.lim)) && top[3] == Tok(Int(k.counter))
      && o.w == (if more then Push(w, Int(k.counter)) else w)
      && Flat(o.push) == if more then top[5 := Tok(Int(0))][3 := Tok(Int(Wrap(k.counter + k.inc)))] else []
  {
    hide Push;
    FlatOne(f.(pos := 0, kind := f.kind.(counter := Wrap(f.kind.counter + f.kind.inc))));
  }

  lemma ForallRound(f: Frame, w: World)
    requires f.Walk? && f.kind.KForall? && WellFormed(f)
    ensures
      var k, top, o := f.kind, Slots(f), Exhaust(f, w);
      var more := k.idx < |k.items|;
      && |top| == 6 && top[1] == Tok(Arr(k.items)) && top[2] == Tok(Int(k.idx)) && 0 <= k.idx
      && o.w == (if more then Push(w, k.items[k.idx]) else w)
      && Flat(o.push) == if more then top[4 := Tok(Int(0))][2 := Tok(Int(k.idx + 1))] else []
  {
    hide Push;
    FlatOne(f.(pos := 0, kind := f.kind.(idx := f.kind.idx + 1)));
  }

  lemma ForallIndexedRound(f: Frame, w: World)
    requires f.Walk? && f.kind.KForallIndexed? && WellFormed(f)
    ensures
      var k, top, o := f.kind, Slots(f), Exhaust(f, w);
      var more := k.count < k.limit;
      && |top| == 7 && top[1] == Tok(Arr(k.items)) && top[2] == Tok(Int(k.limit)) && top[3] == Tok(Int(k.count))
      && 0 <= k.count && k.limit == |k.items|
      && o.w == (if more then PushAll(w, [k.items[k.count], Int(k.count)]) else w)
      && Flat(o.push) == if more then top[5 := Tok(Int(0))][3 := Tok(Int(k.count + 1))] else []
  {
    hide PushAll;
    FlatOne(f.(pos := 0, kind := f.kind.(count := f.kind.count + 1)));
  }

  lemma LoopRound(f: Frame, w: World)
    requires f.Walk? && f.kind.KLoop? && WellFormed(f)
    ensures
      var top, o := Slots(f), Exhaust(f, w);
      |top| == 4 && o.w == w && Flat(o.push) == top[2 := Tok(Int(0))]
  {}

  lemma MappingSlots(f: Frame)
    requires IsMap(f) && WellFormed(f)
    ensures
      var k, top := f.kind, Slots(f);
      var n := |top|;
      && n == (if k.KMapThread? then 8 else 7)
      && top[n - 1] == Marked(MarkerOf(k)) && (MarkerOf(k).IMapThread? <==> k.KMapThread?)
      && (MarkerOf(k).IMapIndexed? <==> k.KMap? && k.indexed)
      && top[n - 4] == Tok(Int(k.at)) && top[n - 5] == Tok(Arr(k.target))
      && top[1] == Tok(Int(k.saved))
      && (k.KMapThread? ==> top[2] == Tok(Arr(k.rows)))
  {
  }

  /** The result of the body goes into the target's slot. */
  lemma WrittenBack(f: Frame, target: seq<Token>)
    requires IsMap(f)
    ensures
      var top := Slots(f);
      |top| >= 7 && Slots(f.(kind := f.kind.(target := target))) == top[|top| - 5 := Tok(Arr(target))]
  {
  }

  lemma MappingExhausts(f: Frame, w: World)
    requires IsMap(f) && WellFormed(f)
    ensures Exhaust(f, w) == ExhaustMap(f, w)
  {}

  /** One more round: position 0 and the next index. */
  lemma MappingAdvances(f: Frame)
    requires IsMap(f)
    ensures
      var k, top := f.kind, Slots(f);
      && |top| >= 7
      && Flat([f.(pos := 0, kind := k.(at := k.at + 1))])
         == top[|top| - 2 := Tok(Int(0))][|top| - 4 := Tok(Int(k.at + 1))]
      && Slots(f.(pos := 0)) == top[|top| - 2 := Tok(Int(0))]
  {
    hide Flat;
    FlatOne(f.(pos := 0, kind := f.kind.(at := f.kind.at + 1)));
  }

  lemma MappingFails(f: Frame, w: World)
    requires IsMap(f) && WellFormed(f) && f.kind.at > 0 && |w.ost| != f.kind.saved + 1
    ensures
      var o := Exhaust(f, w);
      o.w == Raise(w, INTERPRETER, "StackUnderflow") && Flat(o.push) == Slots(f) + [Tok(Func(Stop))]
  {
    FlatTwo([], f, STOP);
    FlatFailure();
    FlatOne(STOP);
    assert [] + [f, STOP] == [f] + [STOP];
    hide Flat, Slots, Raise;
    assert Flat([]) + Slots(f) == Slots(f);
  }
}
