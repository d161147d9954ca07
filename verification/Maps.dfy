/** Map, MapIndexed and MapThread compute their specification. */
module Maps {
  import opened Tokens
  import opened Machine
  import opened Runs
  import opened Locality
  import opened Loops
  import opened LoopExits

  predicate IsMapKind(k: Kind) {
    k.KMap? || k.KMapThread?
  }

  /** The target before the result of round i - 1 is written. */
  function Written(a: seq<Token>, r: seq<Token>, i: nat): (w: seq<Token>)
    requires |r| == |a| && i <= |a|
    ensures |w| == |a|
  {
    if i == 0 then a else r[..i - 1] + a[i - 1..]
  }

  /** The frame of the map k, at the end of round i - 1. */
  function AtRound(k: Kind, r: seq<Token>, i: nat): Kind
    requires IsMapKind(k) && |r| == |k.target| && i <= |r|
  {
    k.(target := Written(k.target, r, i), at := i)
  }

  /** What round i passes to the body. */
  function Arguments(k: Kind, i: nat): seq<Token>
    requires IsMapKind(k) && WellFormedKind(k) && i < |k.target|
  {
    MapArguments(k.(at := i))
  }

  /** The world at the end of round i - 1: the result lies on top. */
  function WithResult(ws: seq<World>, r: seq<Token>, i: nat): World
    requires i < |ws| && |ws| == |r| + 1
  {
    if i == 0 then ws[0] else Push(ws[i], r[i - 1])
  }

  lemma RoundIsWellFormed(k: Kind, r: seq<Token>, i: nat)
    requires IsMapKind(k) && WellFormedKind(k) && |r| == |k.target| && i <= |r|
    ensures WellFormedKind(AtRound(k, r, i))
  {
  }

  /** Results are written to the left of what is still to be read. */
  lemma ArgumentsUnwritten(k: Kind, r: seq<Token>, i: nat)
    requires IsMapKind(k) && WellFormedKind(k) && |r| == |k.target| && i < |r|
    ensures MapArguments(k.(target := Written(k.target, r, i + 1), at := i)) == Arguments(k, i)
  {
  }

  lemma WrittenNext(a: seq<Token>, r: seq<Token>, i: nat)
    requires |r| == |a| && 0 < i < |a|
    ensures Written(a, r, i)[i - 1 := r[i - 1]] == Written(a, r, i + 1)
  {}

  /** The end of a round takes the result off the operand stack and writes it. */
  lemma RoundWrites(k: Kind, p: seq<Token>, r: seq<Token>, ws: seq<World>, i: nat)
    requires IsMapKind(k) && WellFormedKind(k)
    requires |r| == |k.target| && |ws| == |r| + 1 && i < |r|
    requires |ws[i].ost| == k.saved
    ensures WellFormedKind(AtRound(k, r, i))
    ensures var f := Walk(AtRound(k, r, i), p, |p|);
            Exhaust(f, WithResult(ws, r, i)) == NextMap(f, ws[i], Written(k.target, r, i + 1))
  {
    var ki, x := AtRound(k, r, i), WithResult(ws, r, i);
    var f := Walk(ki, p, |p|);
    assert Exhaust(f, x) == ExhaustMap(f, x);
    assert i == 0 ==> ki.target == Written(k.target, r, 1);
    hide Exhaust, NextMap, Fail, Written;
    if i > 0 {
      assert Pick(x.ost, 0) == r[i - 1] && Drop(x, 1) == ws[i] && |x.ost| == k.saved + 1;
      WrittenNext(k.target, r, i);
    }
  }

  lemma MapRound(k: Kind, p: seq<Token>, r: seq<Token>, ws: seq<World>, i: nat)
    requires IsMapKind(k) && WellFormedKind(k)
    requires |r| == |k.target| && |ws| == |r| + 1 && i < |r|
    requires |ws[i].ost| == k.saved
    ensures WellFormedKind(AtRound(k, r, i))
    ensures Exhaust(Walk(AtRound(k, r, i), p, |p|), WithResult(ws, r, i))
            == Out(PushAll(ws[i], Arguments(k, i)), [Walk(AtRound(k, r, i + 1), p, 0)])
  {
    hide Exhaust, WithResult, Arguments, MapArguments, PushAll;
    RoundWrites(k, p, r, ws, i);
    ArgumentsUnwritten(k, r, i);
  }

  lemma MapEnd(k: Kind, p: seq<Token>, r: seq<Token>, ws: seq<World>, o: seq<Token>, a: Token)
    requires IsMapKind(k) && WellFormedKind(k)
    requires |r| == |k.target| && |ws| == |r| + 1
    requires Last(ws).ost == o + [a] && |o| + 1 == k.saved
    ensures WellFormedKind(AtRound(k, r, |r|))
    ensures Exhaust(Walk(AtRound(k, r, |r|), p, |p|), WithResult(ws, r, |r|))
            == Out(Last(ws).(ost := o + [Arr(r)]), [])
  {
    var n := |r|;
    var kn, x := AtRound(k, r, n), WithResult(ws, r, n);
    assert kn.target[n - 1 := r[n - 1]] == r;
    assert Drop(x, 1) == Last(ws);
    assert Push(Drop(Last(ws), 1), Arr(r)) == Last(ws).(ost := o + [Arr(r)]);
  }

  function MapKinds(k: Kind, r: seq<Token>): seq<Kind>
    requires IsMapKind(k) && |r| == |k.target|
  {
    seq(|r| + 1, i requires 0 <= i <= |r| => AtRound(k, r, i))
  }

  function MapEnds(ws: seq<World>, r: seq<Token>): seq<World>
    requires |ws| == |r| + 1
  {
    seq(|r| + 1, i requires 0 <= i <= |r| => WithResult(ws, r, i))
  }

  function MapStarts(k: Kind, ws: seq<World>): seq<World>
    requires IsMapKind(k) && WellFormedKind(k) && |ws| == |k.target| + 1
  {
    seq(|k.target|, i requires 0 <= i < |k.target| => PushAll(ws[i], Arguments(k, i)))
  }

  lemma MapRounds(tco: bool, p: seq<Token>, k: Kind, r: seq<Token>, ws: seq<World>)
    requires IsMapKind(k) && WellFormedKind(k)
    requires |r| == |k.target| && |ws| == |r| + 1
    requires forall i :: 0 <= i < |ws| ==> |ws[i].ost| == k.saved
    requires forall i :: 0 <= i < |r| ==>
      Effect(tco, p, PushAll(ws[i], Arguments(k, i)), Push(ws[i + 1], r[i]))
    ensures Rounds(tco, p, MapKinds(k, r), MapEnds(ws, r), MapStarts(k, ws))
  {
    hide Exhaust, Effect, Arguments, WithResult, Written, PushAll, WellFormedKind;
    var ks, xs, zs := MapKinds(k, r), MapEnds(ws, r), MapStarts(k, ws);
    forall i | 0 <= i <= |r| ensures WellFormedKind(ks[i]) {
      RoundIsWellFormed(k, r, i);
    }
    forall i | 0 <= i < |r|
      ensures Exhaust(Walk(ks[i], p, |p|), xs[i]) == Out(zs[i], [Walk(ks[i + 1], p, 0)])
      ensures Effect(tco, p, zs[i], xs[i + 1])
    {
      MapRound(k, p, r, ws, i);
      ResultAfter(ws, r, i);
    }
  }

  lemma ResultAfter(ws: seq<World>, r: seq<Token>, i: nat)
    requires i < |r| && |ws| == |r| + 1
    ensures WithResult(ws, r, i + 1) == Push(ws[i + 1], r[i])
  {
  }

  /** If every round leaves its one result and nothing else on the operand stack, the map
      operator replaces the array by the results. */
  lemma MapFamilyRuns(tco: bool, e: seq<Frame>, op: Op, p: seq<Token>, k: Kind,
                      r: seq<Token>, ws: seq<World>, o: seq<Token>, a: Token)
    requires Base(e) && !Unwinds(op) && IsMapKind(k) && WellFormedKind(k) && k.at == 0
    requires |r| == |k.target| && |ws| == |r| + 1 && |o| + 1 == k.saved
    requires forall i :: 0 <= i < |ws| ==> ws[i].ost == o + [a]
    requires Operate(op, Push(ws[0], Proc(p))) == Out(ws[0], [Walk(k, p, |p|)])
    requires forall i :: 0 <= i < |r| ==>
      Effect(tco, p, PushAll(ws[i], Arguments(k, i)), Push(ws[i + 1], r[i]))
    ensures Reaches(tco, State(Push(ws[0], Proc(p)), e + [TokF(Func(op))]),
                    State(Last(ws).(ost := o + [Arr(r)]), e))
  {
    MapRounds(tco, p, k, r, ws);
    MapEnd(k, p, r, ws, o, a);
    var ks, xs := MapKinds(k, r), MapEnds(ws, r);
    assert ks[0] == k && Last(ks) == AtRound(k, r, |r|) && Last(xs) == WithResult(ws, r, |r|);
    OperatorRuns(tco, e, op, Push(ws[0], Proc(p)), p, ks, xs, MapStarts(k, ws),
                 Last(ws).(ost := o + [Arr(r)]));
  }

  // ---- nothing to do ----

  /** The empty body has no effect. */
  lemma NoEffect(tco: bool, x: World, y: World)
    requires Effect(tco, [], x, y)
    ensures x == y
  {
    var k: nat :| BodyRuns(tco, [], Body(0, [], x), k, Body(0, [], y));
  }

  /** With an empty array or an empty body the array stays as it is. */
  lemma MapOfNothing(tco: bool, e: seq<Frame>, op: Op, a: seq<Token>, n: nat, p: seq<Token>, x: World)
    requires Base(e) && (op.Map? || op.MapIndexed? || (op.MapThread? && Rectangular(a, n)))
    requires p == [] || a == [] || (op.MapThread? && n == 0)
    ensures Reaches(tco, State(PushAll(x, [Arr(a), Proc(p)]), e + [TokF(Func(op))]), State(Push(x, Arr(a)), e))
  {
    var w := PushAll(x, [Arr(a), Proc(p)]);
    assert Drop(w, 1) == Push(x, Arr(a));
    if a != [] { assert a[0] in a; }
    RowErrorIsRectangular(a, n);
    assert Operate(op, w) == Out(Push(x, Arr(a)), []);
    hide Operate;
    StepOn(tco, w, e, TokF(Func(op)));
    assert e + [] == e;
    ReachesStep(tco, State(w, e + [TokF(Func(op))]));
  }

  /** An empty body can only have been said to leave its argument. */
  lemma {:induction false} NothingMapped(tco: bool, a: seq<Token>, r: seq<Token>, ws: seq<World>, i: nat)
    requires |r| == |a| && |ws| == |a| + 1 && i <= |a|
    requires forall j :: 0 <= j < |a| ==> Effect(tco, [], Push(ws[j], a[j]), Push(ws[j + 1], r[j]))
    ensures ws[i] == ws[0] && r[..i] == a[..i]
    decreases i
  {
    if i > 0 {
      NothingMapped(tco, a, r, ws, i - 1);
      var x, y := Push(ws[i - 1], a[i - 1]), Push(ws[i], r[i - 1]);
      NoEffect(tco, x, y);
      assert Last(x.ost) == a[i - 1] && Last(y.ost) == r[i - 1];
      assert Drop(x, 1) == ws[i - 1] && Drop(y, 1) == ws[i];
      assert r[..i] == r[..i - 1] + [r[i - 1]] && a[..i] == a[..i - 1] + [a[i - 1]];
    }
  }

  // ---- the operators ----

  /** `a p Map`: a body that takes each a[i] to r[i] and leaves the rest of the operand stack
      alone turns the array into r; what lies below is unchanged. */
  lemma MapComputes(tco: bool, e: seq<Frame>, a: seq<Token>, p: seq<Token>,
                    r: seq<Token>, ws: seq<World>, o: seq<Token>)
    requires Base(e) && |r| == |a| && |ws| == |a| + 1
    requires forall i :: 0 <= i < |ws| ==> ws[i].ost == o + [Arr(a)]
    requires forall i :: 0 <= i < |a| ==> Effect(tco, p, Push(ws[i], a[i]), Push(ws[i + 1], r[i]))
    ensures Reaches(tco, State(Push(ws[0], Proc(p)), e + [TokF(Func(Map))]),
                    State(Last(ws).(ost := o + [Arr(r)]), e))
  {
    if p == [] || a == [] {
      if p == [] { NothingMapped(tco, a, r, ws, |a|); }
      assert r == r[..|a|] && a == a[..|a|];
      MapLeavesIt(tco, e, Map, a, 0, p, ws[0], o);
    } else {
      var k := KMap(false, |o| + 1, a, 0);
      assert Drop(Push(ws[0], Proc(p)), 1) == ws[0];
      MapFamilyRuns(tco, e, Map, p, k, r, ws, o, Arr(a));
    }
  }

  lemma MapLeavesIt(tco: bool, e: seq<Frame>, op: Op, a: seq<Token>, n: nat, p: seq<Token>, w: World, o: seq<Token>)
    requires Base(e) && (op.Map? || op.MapIndexed? || (op.MapThread? && Rectangular(a, n)))
    requires p == [] || a == [] || (op.MapThread? && n == 0)
    requires w.ost == o + [Arr(a)]
    ensures Reaches(tco, State(Push(w, Proc(p)), e + [TokF(Func(op))]), State(w, e))
  {
    var x := w.(ost := o);
    assert Push(x, Arr(a)) == w && PushAll(x, [Arr(a), Proc(p)]) == Push(w, Proc(p));
    MapOfNothing(tco, e, op, a, n, p, x);
  }

  /** `a p MapIndexed` also passes the index, counted from 1. */
  lemma MapIndexedComputes(tco: bool, e: seq<Frame>, a: seq<Token>, p: seq<Token>,
                           r: seq<Token>, ws: seq<World>, o: seq<Token>)
    requires Base(e) && |r| == |a| && |ws| == |a| + 1
    requires forall i :: 0 <= i < |ws| ==> ws[i].ost == o + [Arr(a)]
    requires forall i :: 0 <= i < |a| ==>
      Effect(tco, p, PushAll(ws[i], [a[i], Int(i + 1)]), Push(ws[i + 1], r[i]))
    ensures Reaches(tco, State(Push(ws[0], Proc(p)), e + [TokF(Func(MapIndexed))]),
                    State(Last(ws).(ost := o + [Arr(r)]), e))
  {
    if a == [] {
      MapLeavesIt(tco, e, MapIndexed, a, 0, p, ws[0], o);
    } else {
      if p == [] {
        NoEffect(tco, PushAll(ws[0], [a[0], Int(1)]), Push(ws[1], r[0]));
        assert false;
      }
      var k := KMap(true, |o| + 1, a, 0);
      assert Drop(Push(ws[0], Proc(p)), 1) == ws[0];
      MapFamilyRuns(tco, e, MapIndexed, p, k, r, ws, o, Arr(a));
    }
  }

  /** `[rows] p MapThread` passes one column after the other. Without a column, and for an
      empty body, its argument stays as it is. */
  lemma MapThreadComputes(tco: bool, e: seq<Frame>, rows: seq<Token>, n: nat, p: seq<Token>,
                          args: seq<seq<Token>>, r: seq<Token>, ws: seq<World>, o: seq<Token>)
    requires Base(e) && Rectangular(rows, n)
    requires |args| == |r| == n && |ws| == n + 1
    requires forall j :: 0 <= j < n ==> |args[j]| == |rows|
    requires forall j, i :: 0 <= j < n && 0 <= i < |rows| && rows[i] in rows ==> args[j][i] == rows[i].items[j]
    requires forall i :: 0 <= i < |ws| ==> ws[i].ost == o + [Arr(rows)]
    requires forall j :: 0 <= j < n ==> Effect(tco, p, PushAll(ws[j], args[j]), Push(ws[j + 1], r[j]))
    ensures Reaches(tco, State(Push(ws[0], Proc(p)), e + [TokF(Func(MapThread))]),
                    State(if rows == [] || n == 0 || p == [] then ws[0] else Last(ws).(ost := o + [Arr(r)]), e))
  {
    if rows == [] || n == 0 || p == [] {
      MapLeavesIt(tco, e, MapThread, rows, n, p, ws[0], o);
    } else {
      assert rows[0] in rows;
      var k := KMapThread(|o| + 1, rows, rows[0].items, 0);
      assert Drop(Push(ws[0], Proc(p)), 1) == ws[0];
      RowErrorIsRectangular(rows, n);
      forall j | 0 <= j < n ensures args[j] == Arguments(k, j) {
        ColumnCells(rows, n, j, args[j]);
      }
      MapFamilyRuns(tco, e, MapThread, p, k, r, ws, o, Arr(rows));
    }
  }

  lemma ColumnCells(rows: seq<Token>, n: nat, j: nat, cells: seq<Token>)
    requires Rectangular(rows, n) && j < n && |cells| == |rows|
    requires forall i :: 0 <= i < |rows| && rows[i] in rows ==> cells[i] == rows[i].items[j]
    ensures cells == Column(rows, j)
  {
    assert forall i :: 0 <= i < |rows| ==> rows[i] in rows;
  }

  /** For a body that computes a function of its argument in every world, Map maps it. */
  lemma MapIsMap(tco: bool, e: seq<Frame>, w: World, a: seq<Token>, p: seq<Token>, f: Token -> Token)
    requires Base(e)
    requires forall x :: x in a ==> Effect(tco, p, PushAll(w, [Arr(a), x]), PushAll(w, [Arr(a), f(x)]))
    ensures Reaches(tco, State(PushAll(w, [Arr(a), Proc(p)]), e + [TokF(Func(Map))]),
                    State(Push(w, Arr(seq(|a|, i requires 0 <= i < |a| => f(a[i])))), e))
  {
    var u := Push(w, Arr(a));
    var r := seq(|a|, i requires 0 <= i < |a| => f(a[i]));
    var ws := seq(|a| + 1, i => u);
    forall i | 0 <= i < |a| ensures Effect(tco, p, Push(ws[i], a[i]), Push(ws[i + 1], r[i])) {
      assert Push(u, a[i]) == PushAll(w, [Arr(a), a[i]]);
      assert Push(u, r[i]) == PushAll(w, [Arr(a), f(a[i])]);
    }
    MapComputes(tco, e, a, p, r, ws, w.ost);
    assert Push(u, Proc(p)) == PushAll(w, [Arr(a), Proc(p)]);
  }

  /** A body that leaves anything but one result is caught at its end: StackUnderflow is
      raised with the original array still on the operand stack. */
  lemma MapRejectsWrongCount(tco: bool, e: seq<Frame>, k: Kind, p: seq<Token>, x: World)
    requires Base(e) && IsMapKind(k) && WellFormedKind(k) && k.at > 0
    requires |x.ost| != k.saved + 1
    ensures
      var t := Step(tco, State(x, e + [Walk(k, p, |p|)]));
      t == State(Raise(x, INTERPRETER, "StackUnderflow"), e + [Walk(k, p, |p|), STOP])
  {
    StepOn(tco, x, e, Walk(k, p, |p|));
  }

  // ---- coming back ----

  /** What the body left on top at the ends of the rounds, as far as they got. */
  function Results(k: Kind, xs: seq<World>): (r: seq<Token>)
    requires IsMapKind(k)
    ensures |r| == |k.target|
  {
    seq(|k.target|, i requires 0 <= i < |k.target| =>
      if i + 1 < |xs| && xs[i + 1].ost != [] then Last(xs[i + 1].ost) else Int(0))
  }

  /** The world of the end of round i - 1 without the result. */
  function Without(xs: seq<World>, i: nat): World
    requires i < |xs|
  {
    if i > 0 && xs[i].ost != [] then Drop(xs[i], 1) else xs[i]
  }

  /** One round, read from the frame. */
  lemma RoundRead(k: Kind, p: seq<Token>, xs: seq<World>, i: nat, z: World, k': Kind)
    requires IsMapKind(k) && WellFormedKind(k) && i < |xs| && i <= |k.target|
    requires Exhaust(Walk(AtRound(k, Results(k, xs), i), p, |p|), xs[i]) == Out(z, [Walk(k', p, 0)])
    requires WellFormedKind(AtRound(k, Results(k, xs), i))
    ensures i < |k.target| && k' == AtRound(k, Results(k, xs), i + 1)
    ensures z == PushAll(Without(xs, i), Arguments(k, i))
    ensures i > 0 ==> |xs[i].ost| == k.saved + 1
  {
    hide Exhaust, PushAll, MapArguments, Written, Results, Arguments, Rectangular;
    var r := Results(k, xs);
    OnceMore(AtRound(k, r, i), p, xs[i], z, k');
    ArgumentsUnwritten(k, r, i);
    if i > 0 {
      ResultAt(k, xs, i);
      WrittenNext(k.target, r, i);
    } else {
      WrittenFirst(k.target, r);
    }
  }

  lemma ResultAt(k: Kind, xs: seq<World>, i: nat)
    requires IsMapKind(k) && 0 < i < |xs| && i <= |k.target| && xs[i].ost != []
    ensures Results(k, xs)[i - 1] == Pick(xs[i].ost, 0)
  {}

  lemma WrittenFirst(a: seq<Token>, r: seq<Token>)
    requires |r| == |a| && a != []
    ensures Written(a, r, 0) == a && Written(a, r, 1) == a
  {}

  /** What it means that the frame goes on. */
  lemma OnceMore(k: Kind, p: seq<Token>, x: World, z: World, k': Kind)
    requires IsMapKind(k) && WellFormedKind(k)
    requires Exhaust(Walk(k, p, |p|), x) == Out(z, [Walk(k', p, 0)])
    ensures k.at < |k.target| && (k.at > 0 ==> |x.ost| == k.saved + 1)
    ensures
      var target := if k.at > 0 then k.target[k.at - 1 := Pick(x.ost, 0)] else k.target;
      && k' == k.(target := target, at := k.at + 1)
      && z == PushAll(if k.at > 0 then Drop(x, 1) else x, MapArguments(k.(target := target)))
  {
    hide PushAll, MapArguments, Raise;
  }

  /** The last one. */
  lemma EndRead(k: Kind, p: seq<Token>, xs: seq<World>, i: nat, y: World)
    requires IsMapKind(k) && WellFormedKind(k) && i < |xs| && i <= |k.target|
    requires WellFormedKind(AtRound(k, Results(k, xs), i))
    requires Exhaust(Walk(AtRound(k, Results(k, xs), i), p, |p|), xs[i]) == Out(y, [])
    ensures i == |k.target| && |xs[i].ost| == k.saved + 1
    ensures y == Push(Drop(xs[i], 2), Arr(Results(k, xs)))
  {
    var r := Results(k, xs);
    var f := Walk(AtRound(k, r, i), p, |p|);
    assert Exhaust(f, xs[i]) == ExhaustMap(f, xs[i]);
    hide Exhaust, Raise;
    assert i == |k.target| ==> Written(k.target, r, i)[i - 1 := r[i - 1]] == r;
    if i == |k.target| && |xs[i].ost| == k.saved + 1 { assert Drop(Drop(xs[i], 1), 1) == Drop(xs[i], 2); }
  }

  lemma {:induction false} MapKindsRead(tco: bool, p: seq<Token>, k: Kind, ks: seq<Kind>, xs: seq<World>,
                                        zs: seq<World>, i: nat)
    requires Rounds(tco, p, ks, xs, zs) && IsMapKind(k) && k.at == 0 && ks[0] == k && i < |ks|
    ensures i <= |k.target| && ks[i] == AtRound(k, Results(k, xs), i)
    ensures i < |zs| ==> i < |k.target| && zs[i] == PushAll(Without(xs, i), Arguments(k, i))
    ensures 0 < i < |zs| ==> |xs[i].ost| == k.saved + 1
    decreases i
  {
    hide Effect, Exhaust, Arguments, PushAll, Results;
    assert WellFormedKind(ks[i]);
    if i == 0 {
      assert AtRound(k, Results(k, xs), 0) == k;
    } else {
      MapKindsRead(tco, p, k, ks, xs, zs, i - 1);
      assert Exhaust(Walk(ks[i - 1], p, |p|), xs[i - 1]) == Out(zs[i - 1], [Walk(ks[i], p, 0)]);
      RoundRead(k, p, xs, i - 1, zs[i - 1], ks[i]);
    }
    if i < |zs| {
      assert Exhaust(Walk(ks[i], p, |p|), xs[i]) == Out(zs[i], [Walk(ks[i + 1], p, 0)]);
      RoundRead(k, p, xs, i, zs[i], ks[i + 1]);
    }
  }

  /** One round, with the result taken from the stack at its end. */
  lemma RoundResult(tco: bool, p: seq<Token>, k: Kind, ks: seq<Kind>, xs: seq<World>, zs: seq<World>, i: nat)
    requires Rounds(tco, p, ks, xs, zs) && IsMapKind(k) && k.at == 0 && ks[0] == k && i < |zs| == |k.target|
    requires |Last(xs).ost| == k.saved + 1
    ensures |Without(xs, i + 1).ost| == k.saved
    ensures Effect(tco, p, PushAll(Without(xs, i), Arguments(k, i)), Push(Without(xs, i + 1), Results(k, xs)[i]))
  {
    MapKindsRead(tco, p, k, ks, xs, zs, i);
    MapKindsRead(tco, p, k, ks, xs, zs, i + 1);
    assert |xs[i + 1].ost| == k.saved + 1;
    ResultOnTop(k, xs, i + 1);
    assert Effect(tco, p, zs[i], xs[i + 1]);
    hide Effect, Exhaust, Arguments, PushAll, Results, Push;
  }

  lemma MapRoundsRead(tco: bool, p: seq<Token>, k: Kind, ks: seq<Kind>, xs: seq<World>, zs: seq<World>, y: World)
    returns (r: seq<Token>, ws: seq<World>)
    requires Rounds(tco, p, ks, xs, zs) && IsMapKind(k) && k.at == 0 && ks[0] == k && |xs[0].ost| == k.saved
    requires Exhaust(Walk(Last(ks), p, |p|), Last(xs)) == Out(y, [])
    ensures |r| == |k.target| && |ws| == |r| + 1 && ws[0] == xs[0]
    ensures forall i :: 0 <= i < |ws| ==> |ws[i].ost| == k.saved
    ensures forall i :: 0 <= i < |r| ==> Effect(tco, p, PushAll(ws[i], Arguments(k, i)), Push(ws[i + 1], r[i]))
    ensures Last(ws).ost != [] && y == Push(Drop(Last(ws), 1), Arr(r))
  {
    hide Effect, Exhaust, Arguments, PushAll, Results, Written;
    var n := |zs|;
    assert WellFormedKind(ks[0]) && WellFormedKind(ks[n]);
    MapKindsRead(tco, p, k, ks, xs, zs, n);
    EndRead(k, p, xs, n, y);
    r := Results(k, xs);
    ws := seq(n + 1, i requires 0 <= i <= n => Without(xs, i));
    forall i | 0 <= i < |ws| ensures |ws[i].ost| == k.saved {
      if i > 0 { RoundResult(tco, p, k, ks, xs, zs, i - 1); }
    }
    forall i | 0 <= i < |r| ensures Effect(tco, p, PushAll(ws[i], Arguments(k, i)), Push(ws[i + 1], r[i])) {
      RoundResult(tco, p, k, ks, xs, zs, i);
    }
    assert Drop(Last(ws), 1) == Drop(xs[n], 2);
  }

  /** If a Map frame comes back, the body has been run once per element, on its arguments, has
      left one result each time, and the array of the results lies where the source lay. */
  lemma MapFamilyComesBack(tco: bool, e: seq<Frame>, op: Op, w: World, x: World, k: Kind, p: seq<Token>, m: nat)
    returns (r: seq<Token>, ws: seq<World>)
    requires Placed(e, k) && IsMapKind(k) && k.at == 0 && |x.ost| == k.saved
    requires !Unwinds(op) && Operate(op, w) == Out(x, [Walk(k, p, |p|)])
    requires ComesBack(tco, e, State(w, e + [TokF(Func(op))]), m)
    ensures |r| == |k.target| && |ws| == |r| + 1 && ws[0] == x
    ensures forall i :: 0 <= i < |ws| ==> |ws[i].ost| == k.saved
    ensures forall i :: 0 <= i < |r| ==> Effect(tco, p, PushAll(ws[i], Arguments(k, i)), Push(ws[i + 1], r[i]))
    ensures Last(ws).ost != []
    ensures Run(tco, State(w, e + [TokF(Func(op))]), m) == State(Push(Drop(Last(ws), 1), Arr(r)), e)
  {
    hide Effect, Run, ComesBack, Operate, Exhaust, Arguments, Rounds;
    BackAtBase(tco, e, State(w, e + [TokF(Func(op))]), m);
    BuiltComesBack(tco, e, op, w, x, k, p, m);
    var ks, xs, zs := LoopComesBack(tco, e, k, p, x, m - 1);
    r, ws := MapRoundsRead(tco, p, k, ks, xs, zs, Run(tco, State(w, e + [TokF(Func(op))]), m).w);
  }

  lemma ResultOnTop(k: Kind, xs: seq<World>, i: nat)
    requires IsMapKind(k) && 0 < i < |xs| && i <= |k.target| && xs[i].ost != []
    ensures xs[i] == Push(Without(xs, i), Results(k, xs)[i - 1])
  {
  }

  /** If `a p Map` comes back it has mapped: one result of p per element. */
  lemma MapComesBack(tco: bool, e: seq<Frame>, a: seq<Token>, p: seq<Token>, x: World, m: nat)
    returns (r: seq<Token>, ws: seq<World>)
    requires Base(e) && a != [] && p != []
    requires ComesBack(tco, e, State(PushAll(x, [Arr(a), Proc(p)]), e + [TokF(Func(Map))]), m)
    ensures |r| == |a| && |ws| == |r| + 1 && ws[0] == Push(x, Arr(a))
    ensures forall i :: 0 <= i < |r| ==> Effect(tco, p, Push(ws[i], a[i]), Push(ws[i + 1], r[i]))
    ensures Last(ws).ost != []
    ensures Run(tco, State(PushAll(x, [Arr(a), Proc(p)]), e + [TokF(Func(Map))]), m)
            == State(Push(Drop(Last(ws), 1), Arr(r)), e)
  {
    var w, k := PushAll(x, [Arr(a), Proc(p)]), KMap(false, |x.ost| + 1, a, 0);
    assert Drop(w, 1) == Push(x, Arr(a));
    assert Operate(Map, w) == Out(Push(x, Arr(a)), [Walk(k, p, |p|)]);
    hide Operate, Run, ComesBack, Effect;
    r, ws := MapFamilyComesBack(tco, e, Map, w, Push(x, Arr(a)), k, p, m);
    forall i | 0 <= i < |r| ensures Effect(tco, p, Push(ws[i], a[i]), Push(ws[i + 1], r[i])) {
      assert PushAll(ws[i], Arguments(k, i)) == Push(ws[i], a[i]);
    }
  }
}
