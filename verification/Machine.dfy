/** The reference machine. The execution stack is a sequence of frames, and one step
    either dispatches the token on top, fetches one token of the running body and pushes
    it, or handles the end of a body. `tco` switches tail-call elimination on. */
module Machine {
  import opened Tokens

  datatype Errors = Errors(newerror: bool, errorname: Name, commandname: Name)

  /** Everything but the execution stack. The operand stack's top is its last element. The
      dictionary stack is never empty: `current` is its top, `below` the rest, bottom first. */
  datatype World = World(ost: seq<Token>, below: seq<Dictionary>, current: Dictionary, err: Errors)

  /** The state of a body walk beside the body and its position. */
  datatype Kind =
    | KProc
    | KRepeat(left: int)
    | KFor(inc: int, lim: int, counter: int)
    | KForall(items: seq<Token>, idx: int)
    | KForallIndexed(items: seq<Token>, limit: int, count: int)
    | KLoop
    | KMap(indexed: bool, saved: int, target: seq<Token>, at: int)
    | KMapThread(saved: int, rows: seq<Token>, target: seq<Token>, at: int)

  datatype Frame =
    | TokF(t: Token)
    | Walk(kind: Kind, proc: seq<Token>, pos: int)

  datatype State = State(w: World, fs: seq<Frame>)

  /** What a function or the end of a body does: a new world and frames to push. */
  datatype Out = Out(w: World, push: seq<Frame>)

  const SENTINEL := TokF(Nam(ISTOPPED))
  const STOP := TokF(Func(Stop))

  function Last<T>(s: seq<T>): T
    requires s != []
  {
    s[|s| - 1]
  }

  function Init<T>(s: seq<T>): seq<T>
    requires s != []
  {
    s[..|s| - 1]
  }

  function Find(w: World, n: Name): Option<Token> {
    if n in w.current then Some(w.current[n]) else Lookup(w.below, n)
  }

  /** It searches from the top of the dictionary stack down. */
  lemma FindIsTopmost(w: World, n: Name)
    ensures
      var dicts := w.below + [w.current];
      && Find(w, n) == Lookup(dicts, n)
      && (Find(w, n).None? <==> forall d :: d in dicts ==> n !in d)
      && (Find(w, n).Some? ==> exists i: nat :: Topmost(dicts, n, i))
      && (forall i: nat :: Topmost(dicts, n, i) ==> Find(w, n) == Some(dicts[i][n]))
  {
    var dicts := w.below + [w.current];
    assert dicts[..|dicts| - 1] == w.below;
    LookupIsTopmost(dicts, n);
    hide Topmost;
  }

  // ---- the operand stack ----

  function Pick(s: seq<Token>, k: nat): Token
    requires k < |s|
  {
    s[|s| - 1 - k]
  }

  function Drop(w: World, n: nat): World
    requires n <= |w.ost|
  {
    w.(ost := w.ost[..|w.ost| - n])
  }

  function Push(w: World, t: Token): World {
    w.(ost := w.ost + [t])
  }

  function PushAll(w: World, ts: seq<Token>): World {
    w.(ost := w.ost + ts)
  }

  // ---- errors ----

  /** Records the error and leaves one literal on the operand stack; an error while
      `newerror` is still set counts as an error of the handler. */
  function Raise(w: World, cmd: Name, e: Name): World {
    if !w.err.newerror then
      Push(w, Lit(cmd)).(err := Errors(true, e, cmd))
    else
      Push(w, Lit("BadErrorHandler")).(err := w.err.(newerror := false))
  }

  /** Raising schedules `stop`. */
  function Fail(w: World, cmd: Name, e: Name): Out {
    Out(Raise(w, cmd, e), [STOP])
  }

  // ---- functions that do not inspect the execution stack ----

  predicate Unwinds(op: Op) {
    op.Exit? || op.Return? || op.Stop?
  }

  /** The number of operands a function demands. */
  function Arity(op: Op): nat {
    match op
    case Pop | Dup | Exec | Loop | Stopped => 1
    case Ifelse => 3
    case For => 4
    case Exit | Return | Stop => 0
    case _ => 2
  }

  function Operate(op: Op, w: World): Out
    requires !Unwinds(op)
  {
    if |w.ost| < Arity(op) then Fail(w, OpName(op), "StackUnderflow")
    else if IsLoopOp(op) then OperateLoop(op, w)
    else
      var a := Pick(w.ost, 0);
      match op
      case Pop => Out(Drop(w, 1), [])
      case Dup => Out(Push(w, a), [])
      case Exch => Out(PushAll(Drop(w, 2), [a, Pick(w.ost, 1)]), [])
      case Add => Arith(op, w)
      case Sub => Arith(op, w)
      case If =>
        if !Pick(w.ost, 1).Bool? then Fail(w, OpName(op), "TypeMismatch")
        else Out(Drop(w, 2), if Pick(w.ost, 1).b then [TokF(a)] else [])
      case Ifelse =>
        if !Pick(w.ost, 2).Bool? then Fail(w, OpName(op), "TypeMismatch")
        else Out(Drop(w, 3), [TokF(if Pick(w.ost, 2).b then Pick(w.ost, 1) else a)])
      case Exec => Out(Drop(w, 1), [TokF(a)])
      case Def =>
        if !Pick(w.ost, 1).Lit? then Fail(w, OpName(op), "TypeMismatch")
        else Out(Drop(w, 2).(current := w.current[Pick(w.ost, 1).name := a]), [])
      case Stopped => Out(Drop(w, 1), [SENTINEL, TokF(a)])
  }

  function Arith(op: Op, w: World): Out
    requires |w.ost| >= 2 && (op.Add? || op.Sub?)
  {
    var a, b := Pick(w.ost, 1), Pick(w.ost, 0);
    if !a.Int? || !b.Int? then Fail(w, OpName(op), "ArgumentType")
    else
      var r := if op.Add? then a.i + b.i else a.i - b.i;
      if !Fits64(r) then Fail(w, OpName(op), "RangeCheck")
      else Out(Push(Drop(w, 2), Int(r)), [])
  }

  predicate IsLoopOp(op: Op) {
    op.Loop? || op.Repeat? || op.For? || op.Forall? || op.ForallIndexed?
    || op.Map? || op.MapIndexed? || op.MapThread?
  }

  /** The frame builders. */
  function OperateLoop(op: Op, w: World): Out
    requires IsLoopOp(op) && |w.ost| >= Arity(op)
  {
    var a := Pick(w.ost, 0);
    if op.Forall? || op.ForallIndexed? then OperateForall(op, w)
    else if !a.Proc? then Fail(w, OpName(op), "TypeMismatch")
    else if op.Map? || op.MapIndexed? || op.MapThread? then OperateMap(op, w)
    else
      var p := a.items;
      match op
      case Loop => Out(Drop(w, 1), [Walk(KLoop, p, 0)])
      case Repeat =>
        if !Pick(w.ost, 1).Int? then Fail(w, OpName(op), "TypeMismatch")
        else Out(Drop(w, 2), [Walk(KRepeat(Pick(w.ost, 1).i), p, |p|)])
      case For =>
        if !Pick(w.ost, 1).Int? || !Pick(w.ost, 2).Int? || !Pick(w.ost, 3).Int?
        then Fail(w, OpName(op), "TypeMismatch")
        else
          Out(Drop(w, 4),
              [Walk(KFor(Pick(w.ost, 2).i, Pick(w.ost, 1).i, Pick(w.ost, 3).i), p, |p|)])
  }

  function OperateForall(op: Op, w: World): Out
    requires (op.Forall? || op.ForallIndexed?) && |w.ost| >= 2
  {
    var a, c := Pick(w.ost, 0), Pick(w.ost, 1);
    if !a.Proc? then Fail(w, OpName(op), "ArgumentType")
    else if c.Arr? || (op.Forall? && (c.Proc? || c.LitProc?)) then
      var k := if op.Forall? then KForall(c.items, 0) else KForallIndexed(c.items, |c.items|, 0);
      Out(Drop(w, 2), [Walk(k, a.items, |a.items|)])
    else Fail(w, OpName(op), "ArgumentType")
  }

  function OperateMap(op: Op, w: World): Out
    requires (op.Map? || op.MapIndexed? || op.MapThread?) && |w.ost| >= 2
    requires Pick(w.ost, 0).Proc?
  {
    var p, src := Pick(w.ost, 0).items, Pick(w.ost, 1);
    if !src.Arr? then Fail(w, OpName(op), "TypeMismatch")
    else if op.MapThread? then
      if src.items == [] then Out(Drop(w, 1), [])
      else if !src.items[0].Arr? then Fail(w, OpName(op), "ArgumentType")
      else
        var first := src.items[0].items;
        match RowError(src.items, |first|)
        case Some(e) => Fail(w, OpName(op), e)
        case None =>
          if p == [] || first == [] then Out(Drop(w, 1), [])
          else Out(Drop(w, 1), [Walk(KMapThread(|w.ost| - 1, src.items, first, 0), p, |p|)])
    else if p == [] || src.items == [] then Out(Drop(w, 1), [])
    else Out(Drop(w, 1), [Walk(KMap(op.MapIndexed?, |w.ost| - 1, src.items, 0), p, |p|)])
  }

  /** The first reason why the rows are not arrays of length n, if there is one. */
  function RowError(rows: seq<Token>, n: nat): Option<Name> {
    if rows == [] then None
    else if !rows[0].Arr? then Some("ArgumentType")
    else if |rows[0].items| != n then Some("RangeCheck")
    else RowError(rows[1..], n)
  }

  /** All rows are arrays of length n. */
  predicate Rectangular(rows: seq<Token>, n: nat) {
    forall r :: r in rows ==> r.Arr? && |r.items| == n
  }

  lemma RowErrorIsRectangular(rows: seq<Token>, n: nat)
    ensures RowError(rows, n).None? <==> Rectangular(rows, n)
  {}

  /** What it reports is the first row that is no array of length n, and why. */
  lemma {:induction false} RowErrorIsFirst(rows: seq<Token>, n: nat, i: nat)
    requires i < |rows| && Rectangular(rows[..i], n) && !(rows[i].Arr? && |rows[i].items| == n)
    ensures RowError(rows, n) == Some(if rows[i].Arr? then "RangeCheck" else "ArgumentType")
  {
    if i > 0 {
      assert rows[0] == rows[..i][0];
      assert rows[1..][..i - 1] == rows[..i][1..];
      RowErrorIsFirst(rows[1..], n, i - 1);
    }
  }

  // ---- the end of a body ----

  function Column(rows: seq<Token>, j: nat): seq<Token>
    requires forall r :: r in rows ==> r.Arr? && j < |r.items|
  {
    seq(|rows|, k requires 0 <= k < |rows| => rows[k].items[j])
  }

  ghost predicate WellFormedKind(k: Kind) {
    match k
    case KForall(_, idx) => 0 <= idx
    case KForallIndexed(items, limit, count) => limit == |items| && 0 <= count
    case KMap(_, saved, target, at) => 1 <= saved && 0 <= at <= |target| && target != []
    case KMapThread(saved, rows, target, at) =>
      1 <= saved && 0 <= at <= |target| && target != [] && Rectangular(rows, |target|)
    case _ => true
  }

  ghost predicate WellFormed(f: Frame) {
    f.Walk? ==> 0 <= f.pos && WellFormedKind(f.kind)
  }

  /** What happens when a body has no more tokens: the frame is pushed back at position 0
      for one more round, or it is gone. */
  function Exhaust(f: Frame, w: World): Out
    requires f.Walk? && WellFormed(f)
  {
    var again := f.(pos := 0);
    match f.kind
    case KProc => Out(w, [])
    case KRepeat(left) =>
      if left > 0 then Out(w, [again.(kind := KRepeat(left - 1))]) else Out(w, [])
    case KFor(inc, lim, counter) =>
      if (inc > 0 && counter <= lim) || (inc < 0 && counter >= lim) then
        Out(Push(w, Int(counter)), [again.(kind := KFor(inc, lim, Wrap(counter + inc)))])
      else Out(w, [])
    case KForall(items, idx) =>
      if idx < |items| then Out(Push(w, items[idx]), [again.(kind := KForall(items, idx + 1))])
      else Out(w, [])
    case KForallIndexed(items, limit, count) =>
      if count < limit then
        Out(PushAll(w, [items[count], Int(count)]),
            [again.(kind := KForallIndexed(items, limit, count + 1))])
      else Out(w, [])
    case KLoop => Out(w, [again])
    case KMap(_, saved, target, at) => ExhaustMap(f, w)
    case KMapThread(saved, rows, target, at) => ExhaustMap(f, w)
  }

  predicate IsMap(f: Frame) {
    f.Walk? && (f.kind.KMap? || f.kind.KMapThread?)
  }

  /** Writes the body's result back, if the body left exactly one, and goes on. */
  function ExhaustMap(f: Frame, w: World): Out
    requires IsMap(f) && WellFormed(f)
  {
    var k := f.kind;
    if k.at > 0 && |w.ost| != k.saved + 1 then
      var o := Fail(w, INTERPRETER, "StackUnderflow");
      Out(o.w, [f] + o.push)
    else if k.at > 0 then NextMap(f, Drop(w, 1), k.target[k.at - 1 := Pick(w.ost, 0)])
    else NextMap(f, w, k.target)
  }

  /** Pushes the next arguments or delivers the array. */
  function NextMap(f: Frame, v: World, target: seq<Token>): Out
    requires IsMap(f) && WellFormed(f) && |target| == |f.kind.target|
    requires f.kind.at < |target| || v.ost != []
  {
    var k := f.kind;
    if k.at < |target| then
      Out(PushAll(v, MapArguments(k.(target := target))),
          [f.(pos := 0, kind := k.(target := target, at := k.at + 1))])
    else
      Out(Push(Drop(v, 1), Arr(target)), [])
  }

  function MapArguments(k: Kind): seq<Token>
    requires (k.KMap? || k.KMapThread?) && WellFormedKind(k) && k.at < |k.target|
  {
    if k.KMapThread? then Column(k.rows, k.at)
    else if k.indexed then [k.target[k.at], Int(k.at + 1)]
    else [k.target[k.at]]
  }

  // ---- unwinding ----

  predicate IsLoop(f: Frame) {
    f.Walk? && !f.kind.KProc?
  }

  /** What is left below the innermost loop, if there is one. */
  function UnwindLoop(fs: seq<Frame>): Option<seq<Frame>> {
    if fs == [] then None
    else if IsLoop(Last(fs)) then Some(Init(fs))
    else UnwindLoop(Init(fs))
  }

  /** What is left below the innermost `stopped` sentinel, if there is one. */
  function UnwindStopped(fs: seq<Frame>): Option<seq<Frame>> {
    if fs == [] then None
    else if Last(fs) == SENTINEL then Some(Init(fs))
    else UnwindStopped(Init(fs))
  }

  /** What is left below the innermost procedure, where only loops are stepped over. When
      something else comes first and a loop was stepped over, only the loops go. */
  function UnwindReturn(fs: seq<Frame>, passed: bool): Option<seq<Frame>> {
    if fs == [] then None
    else if IsLoop(Last(fs)) then UnwindReturn(Init(fs), true)
    else if Last(fs).Walk? then Some(Init(fs))
    else if passed then Some(fs)
    else None
  }

  /** A function runs with its own slot already popped. */
  function Perform(op: Op, w: World, rest: seq<Frame>): State {
    match op
    case Exit =>
      (match UnwindLoop(rest)
       case Some(fs) => State(w, fs)
       case None => State(Raise(w, OpName(op), "EStackUnderflow"), rest + [STOP]))
    case Return =>
      (match UnwindReturn(rest, false)
       case Some(fs) => State(w, fs)
       case None => State(Raise(w, OpName(op), "InvalidReturn"), rest + [STOP]))
    case Stop =>
      (match UnwindStopped(rest)
       case Some(fs) => State(Push(w, Bool(true)), fs)
       case None => State(w, []))
    case _ =>
      var o := Operate(op, w);
      State(o.w, rest + o.push)
  }

  // ---- steps and runs ----

  function Dispatch(w: World, rest: seq<Frame>, t: Token): State {
    match t
    case Nam(n) =>
      (match Find(w, n)
       case None => State(Raise(w, INTERPRETER, "UndefinedName"), rest + [TokF(t), STOP])
       case Some(v) =>
         if Executable(v) then State(w, rest + [TokF(v)]) else State(Push(w, v), rest))
    case LitProc(body) => State(Push(w, Proc(body)), rest)
    case Proc(body) => State(w, rest + [Walk(KProc, body, 0)])
    case Func(op) => Perform(op, w, rest)
    case _ => State(Push(w, t), rest)
  }

  /** With tail-call elimination a procedure's frame goes before its last executable token. */
  predicate TailCall(f: Frame)
    requires f.Walk? && 0 <= f.pos < |f.proc|
  {
    f.kind.KProc? && f.pos + 1 == |f.proc| && Executable(f.proc[f.pos])
  }

  function Fetch(tco: bool, w: World, rest: seq<Frame>, f: Frame): State
    requires f.Walk? && 0 <= f.pos < |f.proc|
  {
    if tco && TailCall(f) then State(w, rest + [TokF(f.proc[f.pos])])
    else State(w, rest + [f.(pos := f.pos + 1), TokF(f.proc[f.pos])])
  }

  /** One step with frame f on top. */
  function StepTop(tco: bool, w: World, rest: seq<Frame>, f: Frame): State
    requires WellFormed(f)
  {
    if f.TokF? then Dispatch(w, rest, f.t)
    else if f.pos < |f.proc| then Fetch(tco, w, rest, f)
    else
      var o := Exhaust(f, w);
      State(o.w, rest + o.push)
  }

  function Step(tco: bool, s: State): State
    requires s.fs != [] ==> WellFormed(Last(s.fs))
  {
    if s.fs == [] then s else StepTop(tco, s.w, Init(s.fs), Last(s.fs))
  }

  lemma StepOn(tco: bool, w: World, rest: seq<Frame>, f: Frame)
    requires WellFormed(f)
    ensures Step(tco, State(w, rest + [f])) == StepTop(tco, w, rest, f)
  {}

  /** Below the top there are only body walks, sentinels and unresolved names. */
  predicate Resting(f: Frame) {
    f.TokF? ==> f.t.Nam?
  }

  ghost predicate Inv(s: State) {
    && (forall f :: f in s.fs ==> WellFormed(f))
    && (forall i :: 0 <= i < |s.fs| - 1 ==> Resting(s.fs[i]))
  }
}
