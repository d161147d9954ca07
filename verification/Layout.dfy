/** How frames lie on the execution stack, slot by slot, and that the scans of the unwinding
    functions remove whole frames. */
module Layout {
  import opened Tokens
  import opened Machine
  import opened Runs

  function MarkerOf(k: Kind): Marker {
    match k
    case KProc => IIterate
    case KRepeat(_) => IRepeat
    case KFor(_, _, _) => IFor
    case KForall(_, _) => IForall
    case KForallIndexed(_, _, _) => IForallIndexed
    case KLoop => ILoop
    case KMap(indexed, _, _, _) => if indexed then IMapIndexed else IMap
    case KMapThread(_, _, _, _) => IMapThread
  }

  lemma MarkerTellsKind(f: Frame)
    requires f.Walk?
    ensures
      match MarkerOf(f.kind)
      case IIterate => f.kind.KProc?
      case IRepeat => f.kind.KRepeat?
      case IFor => f.kind.KFor?
      case IForall => f.kind.KForall?
      case IForallIndexed => f.kind.KForallIndexed?
      case ILoop => f.kind.KLoop?
      case IMap => IsMap(f)
      case IMapIndexed => IsMap(f)
      case IMapThread => IsMap(f)
  {
  }

  /** The slots below body, position and marker. Every loop puts a mark at the bottom. */
  function KindSlots(k: Kind): seq<Slot> {
    match k
    case KProc => []
    case KLoop => [Tok(Mark)]
    case KRepeat(left) => [Tok(Mark), Tok(Int(left))]
    case KFor(inc, lim, counter) => [Tok(Mark), Tok(Int(inc)), Tok(Int(lim)), Tok(Int(counter))]
    case KForall(items, idx) => [Tok(Mark), Tok(Arr(items)), Tok(Int(idx))]
    case KForallIndexed(items, limit, count) =>
      [Tok(Mark), Tok(Arr(items)), Tok(Int(limit)), Tok(Int(count))]
    case KMap(_, saved, target, at) =>
      [Tok(Mark), Tok(Int(saved)), Tok(Arr(target)), Tok(Int(at))]
    case KMapThread(saved, rows, target, at) =>
      [Tok(Mark), Tok(Int(saved)), Tok(Arr(rows)), Tok(Arr(target)), Tok(Int(at))]
  }

  function Slots(f: Frame): (r: seq<Slot>)
    ensures r != []
  {
    match f
    case TokF(t) => [Tok(t)]
    case Walk(k, p, pos) => KindSlots(k) + [Tok(Proc(p)), Tok(Int(pos)), Marked(MarkerOf(k))]
  }

  function Flat(fs: seq<Frame>): seq<Slot> {
    if fs == [] then [] else Flat(Init(fs)) + Slots(Last(fs))
  }

  /** The slot k places below the top. */
  function Peek(es: seq<Slot>, k: nat): Slot
    requires k < |es|
  {
    es[|es| - 1 - k]
  }

  function Cut(es: seq<Slot>, n: nat): seq<Slot>
    requires n <= |es|
  {
    es[..|es| - n]
  }

  lemma FlatOne(f: Frame)
    ensures Flat([f]) == Slots(f)
  {}

  lemma {:induction false} FlatAppend(fs: seq<Frame>, gs: seq<Frame>)
    ensures Flat(fs + gs) == Flat(fs) + Flat(gs)
  {
    hide Slots;
    if gs == [] {
      assert fs + gs == fs;
    } else {
      var front, f := Init(gs), Last(gs);
      FlatAppend(fs, front);
      FlatSnoc(fs + front, f);
      assert fs + gs == fs + front + [f];
    }
  }

  lemma FlatSnoc(fs: seq<Frame>, f: Frame)
    ensures Flat(fs + [f]) == Flat(fs) + Slots(f)
  {}

  lemma FlatToken(fs: seq<Frame>, t: Token)
    ensures Flat(fs + [TokF(t)]) == Flat(fs) + [Tok(t)]
  {}

  lemma FlatTwo(fs: seq<Frame>, f: Frame, g: Frame)
    ensures Flat(fs + [f, g]) == Flat(fs) + Slots(f) + Slots(g)
  {
    FlatSnoc(fs, f);
    FlatSnoc(fs + [f], g);
    assert fs + [f] + [g] == fs + [f, g];
  }

  /** Only an empty stack of frames is an empty stack of slots. */
  lemma FlatEmpty(fs: seq<Frame>)
    ensures Flat(fs) == [] <==> fs == []
  {
  }

  predicate AllResting(fs: seq<Frame>) {
    forall f :: f in fs ==> Resting(f)
  }

  // ---- scans ----

  /** None of the first n slots from the top is wanted. */
  ghost predicate NoneAbove(wanted: Slot -> bool, es: seq<Slot>, n: nat) {
    n <= |es| && forall j: nat :: j < n ==> !wanted(Peek(es, j))
  }

  /** n is the first place, counted from the top, with a wanted slot. */
  ghost predicate FirstAt(wanted: Slot -> bool, es: seq<Slot>, n: nat) {
    n < |es| && wanted(Peek(es, n)) && NoneAbove(wanted, es, n)
  }

  /** Counted from the top, the slots of the top frame come first. */
  lemma PeekSplit(below: seq<Slot>, top: seq<Slot>, j: nat)
    requires j < |below + top|
    ensures Peek(below + top, j) == if j < |top| then top[|top| - 1 - j] else Peek(below, j - |top|)
  {
  }

  /** The wanted slot is the lowest of the top frame: popping through it removes the frame. */
  lemma FoundInTop(wanted: Slot -> bool, below: seq<Slot>, top: seq<Slot>, n: nat)
    requires top != [] && FirstAt(wanted, below + top, n)
    requires forall i :: 0 <= i < |top| ==> (wanted(top[i]) <==> i == 0)
    ensures n == |top| - 1 && Cut(below + top, n + 1) == below
  {
    PeekSplit(below, top, |top| - 1);
    PeekSplit(below, top, n);
  }

  /** The top frame has none: the scan goes on below it. */
  lemma FoundBelow(wanted: Slot -> bool, below: seq<Slot>, top: seq<Slot>, n: nat)
    requires FirstAt(wanted, below + top, n) && forall i :: 0 <= i < |top| ==> !wanted(top[i])
    ensures n >= |top| && FirstAt(wanted, below, n - |top|)
    ensures Cut(below + top, n + 1) == Cut(below, n - |top| + 1)
  {
    PeekSplit(below, top, n);
    forall j: nat | j < n - |top| ensures !wanted(Peek(below, j)) {
      PeekSplit(below, top, j + |top|);
    }
  }

  lemma NoneInEither(wanted: Slot -> bool, below: seq<Slot>, top: seq<Slot>)
    requires NoneAbove(wanted, below + top, |below + top|)
    ensures NoneAbove(wanted, below, |below|) && forall i :: 0 <= i < |top| ==> !wanted(top[i])
  {
    forall i | 0 <= i < |top| ensures !wanted(top[i]) {
      PeekSplit(below, top, |top| - 1 - i);
    }
    forall j: nat | j < |below| ensures !wanted(Peek(below, j)) {
      PeekSplit(below, top, j + |top|);
    }
  }

  // ---- exit ----

  predicate IsMark(s: Slot) {
    s == Tok(Mark)
  }

  lemma MarksOfFrame(f: Frame)
    requires Resting(f)
    ensures forall i :: 0 <= i < |Slots(f)| ==> (IsMark(Slots(f)[i]) <==> IsLoop(f) && i == 0)
  {
  }

  /** The scan of `exit`: the first mark from the top is the bottom of the innermost loop's
      frame, so that popping through it removes whole frames. */
  lemma {:induction false} MarkIsLoopBottom(fs: seq<Frame>, n: nat)
    requires AllResting(fs) && FirstAt(IsMark, Flat(fs), n)
    ensures UnwindLoop(fs).Some? && Flat(UnwindLoop(fs).value) == Cut(Flat(fs), n + 1)
  {
    var f, below := Last(fs), Flat(Init(fs));
    var top := Slots(f);
    assert Flat(fs) == below + top;
    MarksOfFrame(f);
    hide Slots, IsMark, Flat, Cut, FirstAt;
    if IsLoop(f) {
      FoundInTop(IsMark, below, top, n);
    } else {
      FoundBelow(IsMark, below, top, n);
      MarkIsLoopBottom(Init(fs), n - |top|);
    }
  }

  lemma {:induction false} NoMarkNoLoop(fs: seq<Frame>)
    requires AllResting(fs) && NoneAbove(IsMark, Flat(fs), |Flat(fs)|)
    ensures UnwindLoop(fs).None?
  {
    if fs != [] {
      var f, below := Last(fs), Flat(Init(fs));
      var top := Slots(f);
      assert Flat(fs) == below + top;
      MarksOfFrame(f);
      hide Slots, IsMark, Flat, NoneAbove;
      NoneInEither(IsMark, below, top);
      assert !IsMark(top[0]);
      NoMarkNoLoop(Init(fs));
    }
  }

  // ---- stop ----

  /** The comparison with a name looks at executable and literal names alike. */
  predicate IsSentinel(s: Slot) {
    s.Tok? && (s.t.Nam? || s.t.Lit?) && s.t.name == ISTOPPED
  }

  lemma SentinelsOfFrame(f: Frame)
    requires Resting(f)
    ensures forall i :: 0 <= i < |Slots(f)| ==> (IsSentinel(Slots(f)[i]) <==> f == SENTINEL)
    ensures f == SENTINEL ==> |Slots(f)| == 1
  {
  }

  /** The scan of `stop`: the first sentinel from the top is that of the innermost context. */
  lemma {:induction false} SentinelIsFrame(fs: seq<Frame>, n: nat)
    requires AllResting(fs) && FirstAt(IsSentinel, Flat(fs), n)
    ensures UnwindStopped(fs).Some? && Flat(UnwindStopped(fs).value) == Cut(Flat(fs), n + 1)
  {
    var f, below := Last(fs), Flat(Init(fs));
    var top := Slots(f);
    assert Flat(fs) == below + top;
    SentinelsOfFrame(f);
    hide Slots, IsSentinel, Flat, Cut, FirstAt;
    if f == SENTINEL {
      FoundInTop(IsSentinel, below, top, n);
    } else {
      FoundBelow(IsSentinel, below, top, n);
      SentinelIsFrame(Init(fs), n - |top|);
    }
  }

  lemma {:induction false} NoSentinelNoContext(fs: seq<Frame>)
    requires AllResting(fs) && NoneAbove(IsSentinel, Flat(fs), |Flat(fs)|)
    ensures UnwindStopped(fs).None?
  {
    if fs != [] {
      var f, below := Last(fs), Flat(Init(fs));
      var top := Slots(f);
      assert Flat(fs) == below + top;
      SentinelsOfFrame(f);
      hide Slots, IsSentinel, Flat, NoneAbove;
      NoneInEither(IsSentinel, below, top);
      assert !IsSentinel(top[0]);
      NoSentinelNoContext(Init(fs));
    }
  }

  // ---- return ----

  /** The frame sizes that `return` knows. */
  function LoopSize(m: Marker): (n: nat)
    requires !m.IIterate?
    ensures n > 3
  {
    match m
    case IForall => 6
    case IFor => 7
    case IForallIndexed => 7
    case IMap => 7
    case IMapIndexed => 7
    case ILoop => 4
    case IRepeat => 5
    case IMapThread => 8
  }

  /** They are the sizes of the frames. */
  lemma LoopSizesFit(f: Frame)
    requires f.Walk?
    ensures |Slots(f)| == if f.kind.KProc? then 3 else LoopSize(MarkerOf(f.kind))
    ensures MarkerOf(f.kind).IIterate? <==> f.kind.KProc?
  {
  }

  lemma TopSlot(fs: seq<Frame>)
    requires fs != []
    ensures Flat(fs) != [] && Peek(Flat(fs), 0)
            == if Last(fs).Walk? then Marked(MarkerOf(Last(fs).kind)) else Tok(Last(fs).t)
    ensures |Slots(Last(fs))| <= |Flat(fs)|
    ensures Cut(Flat(fs), |Slots(Last(fs))|) == Flat(Init(fs))
  {
  }

  /** One step of the scan of `return`, with n slots of loop frames passed and gs below. */
  lemma ReturnScan(es: seq<Slot>, gs: seq<Frame>, n: nat, passed: bool)
    requires n < |es| && Flat(gs) == Cut(es, n)
    ensures gs != []
    ensures
      var s := Peek(es, n);
      if s.Tok? then UnwindReturn(gs, passed) == if passed then Some(gs) else None
      else
        var size := if s.m.IIterate? then 3 else LoopSize(s.m);
        && n + size <= |es| && Flat(Init(gs)) == Cut(es, n + size)
        && UnwindReturn(gs, passed) == if s.m.IIterate? then Some(Init(gs))
                                       else UnwindReturn(Init(gs), true)
  {
    hide Slots, Flat;
    FlatEmpty(gs);
    TopSlot(gs);
    assert Peek(es, n) == Peek(Flat(gs), 0);
    var f := Last(gs);
    if f.Walk? {
      LoopSizesFit(f);
      hide LoopSize, MarkerOf;
      CutTwice(es, n, |Slots(f)|);
    }
  }

  lemma NoReturnTarget(gs: seq<Frame>, passed: bool)
    requires Flat(gs) == []
    ensures UnwindReturn(gs, passed).None?
  {}

  lemma CutTwice(es: seq<Slot>, m: nat, n: nat)
    requires m + n <= |es|
    ensures Cut(Cut(es, m), n) == Cut(es, m + n)
  {
  }

  /** A body walk on top: marker, position and body are the first three slots. */
  lemma TopWalkOn(rest: seq<Frame>, f: Frame)
    requires f.Walk?
    ensures
      var es := Flat(rest + [f]);
      && |es| >= 3
      && Peek(es, 0) == Marked(MarkerOf(f.kind)) && Peek(es, 1) == Tok(Int(f.pos))
      && Peek(es, 2) == Tok(Proc(f.proc))
  {}

  /** Writing the position cell moves the walk. */
  lemma MovePosition(fs: seq<Frame>, f: Frame, q: int)
    requires f.Walk?
    ensures
      var es := Flat(fs + [f]);
      |es| >= 3 && es[|es| - 2 := Tok(Int(q))] == Flat(fs + [f.(pos := q)])
  {}

  /** Overwriting the body cell by the last token and dropping two slots leaves the token
      in the frame's place. */
  lemma ReplaceByTail(fs: seq<Frame>, f: Frame, t: Token)
    requires f.Walk? && f.kind.KProc?
    ensures
      var es := Flat(fs + [f]);
      |es| >= 3 && Cut(es[|es| - 3 := Tok(t)], 2) == Flat(fs + [TokF(t)])
  {}
}
