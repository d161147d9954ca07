/** Range, Flatten, Partition and Transpose. */
module ArrayOps {
  import opened Arithmetic
  import opened Tokens
  import opened Machine
  import opened Runs
  import opened Locality
  import L = Loops

  /** `Strays` is a read outside of the array, which nothing checks. */
  datatype Outcome = Done(items: seq<Token>) | Error(e: Name) | Strays

  // ---- Range ----

  function Abs(x: int): nat {
    if x < 0 then -x else x
  }

  /** C++ `/`, which truncates towards zero. */
  function Quotient(x: int, d: int): int
    requires d != 0
  {
    if (x < 0) == (d < 0) then Abs(x) / Abs(d) else -(Abs(x) / Abs(d))
  }

  predicate InRange(start: int, stop: int, di: int) {
    (di > 0 && stop >= start) || (di < 0 && stop <= start)
  }

  /** The number of items, without regard to the size of a word. */
  lemma {:induction false} RangeCount(start: int, stop: int, di: int)
    requires InRange(start, stop, di)
    ensures |L.ForItems(start, di, stop)| == 1 + Quotient(stop - start, di)
    decreases if di > 0 then stop - start else start - stop
  {
    if InRange(start + di, stop, di) {
      RangeCount(start + di, stop, di);
      OneStepLess(Abs(stop - start), Abs(di));
    } else {
      SmallQuotient(Abs(stop - start), Abs(di));
    }
  }

  lemma OneStepLess(x: nat, d: nat)
    requires 0 < d <= x
    ensures x / d == (x - d) / d + 1
  {
    var q, r := (x - d) / d, (x - d) % d;
    assert x == (q + 1) * d + r;
    DivMod(x, d, q + 1, r);
  }

  lemma SmallQuotient(x: nat, d: nat)
    requires x < d
    ensures x / d == 0
  {
  }

  /** The number of items as the code computes it, in words. */
  function RangeWord(start: int, stop: int, di: int): int
    requires di != 0
  {
    Wrap(1 + Wrap(Quotient(Wrap(stop - start), di)))
  }

  /** What the code makes of the three numbers. No memory can be reserved for a negative count. */
  function Progression(start: int, stop: int, di: int): Outcome
    requires di != 0
  {
    if !InRange(start, stop, di) then Done([])
    else
      var n := RangeWord(start, stop, di);
      if n < 0 then Error("C++Exception") else Done(Steps(start, di, n))
  }

  function Steps(start: int, di: int, n: nat): (r: seq<Token>)
    ensures |r| == n
  {
    seq(n, j requires 0 <= j < n => Int(Wrap(start + j * di)))
  }

  /** What `Range` gives for integer arguments. */
  function RangeOf(args: seq<int>): Outcome {
    if |args| < 1 || |args| > 3 then Error("RangeCheck")
    else if |args| == 3 && args[2] == 0 then Error("DivisionByZero")
    else if |args| == 1 then Progression(1, args[0], 1)
    else Progression(args[0], args[1], if |args| == 3 then args[2] else 1)
  }

  method Range(args: seq<int>) returns (r: Outcome)
    requires forall x :: x in args ==> Fits64(x)
    ensures r == RangeOf(args)
  {
    if |args| < 1 || |args| > 3 { return Error("RangeCheck"); }
    var start, stop, di := 1, 0, 1;
    if |args| == 1 {
      stop := args[0];
    } else {
      start, stop := args[0], args[1];
      if |args| == 3 { di := args[2]; }
    }
    if di == 0 { return Error("DivisionByZero"); }
    r := RangeItems(start, stop, di);
  }

  method RangeItems(start: int, stop: int, di: int) returns (r: Outcome)
    requires di != 0 && Fits64(start)
    ensures r == Progression(start, stop, di)
  {
    if !InRange(start, stop, di) { return Done([]); }
    var n := Wrap(1 + Wrap(Quotient(Wrap(stop - start), di)));
    if n < 0 { return Error("C++Exception"); }
    var out, s := [], start;
    hide Wrap;
    for j := 0 to n
      invariant s == Wrap(start + j * di)
      invariant out == Steps(start, di, n)[..j]
    {
      out := out + [Int(s)];
      NextMultiple(j, di);
      WrapAgain(start + j * di, di);
      s := Wrap(s + di);
    }
    return Done(out);
  }

  lemma NextMultiple(j: int, d: int)
    ensures (j + 1) * d == j * d + d
  {
  }

  /** Sums wrap around alike, early or late. */
  lemma WrapAgain(x: int, d: int)
    ensures Wrap(Wrap(x) + d) == Wrap(x + d)
  {
    var y := x - INT64_MIN;
    DivMod(y + d, WORD, y / WORD + (y % WORD + d) / WORD, (y % WORD + d) % WORD);
  }

  /** The difference and the count fit a word. */
  predicate RangeFits(start: int, stop: int, di: int)
    requires di != 0
  {
    InRange(start, stop, di) ==> Fits64(stop - start) && Fits64(1 + Quotient(stop - start, di))
  }

  /** `Range` gives the arithmetic progression exactly if difference and count fit. */
  lemma RangeIsProgression(start: int, stop: int, di: int)
    requires di != 0 && Fits64(start) && Fits64(stop) && Fits64(di)
    ensures Progression(start, stop, di) == Done(L.Ints(L.ForItems(start, di, stop))) <==> RangeFits(start, stop, di)
  {
    if InRange(start, stop, di) {
      hide L.ForItems, RangeWord, Quotient, Wrap, Steps;
      RangeCount(start, stop, di);
      if RangeFits(start, stop, di) {
        WordFits(start, stop, di);
        StepsAreItems(start, stop, di);
      } else {
        FewerThanItems(start, stop, di);
      }
    }
  }

  lemma WordFits(start: int, stop: int, di: int)
    requires di != 0 && Fits64(stop - start) && Fits64(1 + Quotient(stop - start, di))
    requires InRange(start, stop, di)
    ensures 0 <= RangeWord(start, stop, di) == 1 + Quotient(stop - start, di)
  {
    RangeCount(start, stop, di);
    WrapsOnce(stop - start);
    WrapsOnce(Quotient(stop - start, di));
    WrapsOnce(1 + Quotient(stop - start, di));
    hide L.ForItems, Quotient, Wrap;
  }

  lemma StepsAreItems(start: int, stop: int, di: int)
    requires Fits64(start) && Fits64(stop)
    ensures Steps(start, di, |L.ForItems(start, di, stop)|) == L.Ints(L.ForItems(start, di, stop))
  {
    var items := L.ForItems(start, di, stop);
    hide L.ForItems, Wrap;
    forall j | 0 <= j < |items| ensures Int(Wrap(start + j * di)) == Int(items[j]) {
      L.ForItemsAt(start, di, stop, j);
      L.Between(start, di, 0, j);
    }
  }

  /** A difference or a count that wraps around gives at most one item, where there are more. */
  lemma FewerThanItems(start: int, stop: int, di: int)
    requires di != 0 && Fits64(start) && Fits64(stop) && Fits64(di)
    requires InRange(start, stop, di) && !RangeFits(start, stop, di)
    ensures RangeWord(start, stop, di) < 1 + Quotient(stop - start, di)
  {
    var x := stop - start;
    if Fits64(x) {
      AtMost(Abs(x), Abs(di));
      WrapsOnce(Quotient(x, di));
      WrapsOnce(1 + Quotient(x, di));
      WrapsOnce(1 + Wrap(Quotient(x, di)));
      hide Wrap, Quotient;
    } else {
      WrapsOnce(x);
      AtLeastOne(Abs(x), Abs(di));
      AtMost(Abs(Wrap(x)), Abs(di));
      WrapsOnce(Quotient(Wrap(x), di));
      hide Wrap;
    }
  }

  lemma AtMost(x: nat, d: nat)
    requires d > 0
    ensures 0 <= x / d <= x
  {
    assert x == (x / d) * d + x % d;
    AtLeast(d, x / d);
  }

  lemma AtLeastOne(x: nat, d: nat)
    requires 0 < d <= x
    ensures x / d >= 1
  {
    OneStepLess(x, d);
  }

  /** Where `a s b {} for` ends, `[a b s] Range` lists exactly what it leaves on the stack if and
      only if the difference and the count fit. */
  lemma RangeListsTheCounters(tco: bool, e: seq<Frame>, w: World, a: int, s: int, b: int)
    requires Base(e) && s != 0 && Fits64(s) && Fits64(b) && L.CountersFit(a, s, b)
    ensures
      var items := L.Ints(L.ForItems(a, s, b));
      && Reaches(tco, State(PushAll(w, [Int(a), Int(s), Int(b), Proc([])]), e + [TokF(Func(For))]),
                 State(PushAll(w, items), e))
      && (RangeOf([a, b, s]) == Done(items) <==> RangeFits(a, b, s))
  {
    L.ForLeavesItems(tco, e, w, a, s, b);
    RangeIsProgression(a, b, s);
  }

  /** An example in which they differ: there are 18 items, and `Range` gives none. */
  lemma RangeRunsShort()
    ensures
      var a, b, s := -9_000_000_000_000_000_000, 8_000_000_000_000_000_000, 1_000_000_000_000_000_000;
      && |L.ForItems(a, s, b)| == 18 && L.CountersFit(a, s, b)
      && RangeOf([a, b, s]) == Done([])
  {
    var a, b, s := -9_000_000_000_000_000_000, 8_000_000_000_000_000_000, 1_000_000_000_000_000_000;
    RangeCount(a, b, s);
    WrapsOnce(b - a);
    DivMod(17_000_000_000_000_000_000, s, 17, 0);
    DivMod(1_446_744_073_709_551_616, s, 1, 446_744_073_709_551_616);
    hide L.ForItems;
    assert Quotient(Wrap(b - a), s) == -1;
  }

  /** One argument is the limit: the range is 1, 2, ..., n. Of two, the step is 1. */
  lemma RangeDefaults(a: int, b: int)
    requires Fits64(a) && Fits64(b)
    ensures RangeOf([a, b]) == RangeOf([a, b, 1])
    ensures
      var n := if b < 0 then 0 else b;
      RangeOf([b]) == Done(seq(n, i requires 0 <= i < n => Int(i + 1)))
  {
    if b >= 1 {
      assert Quotient(b - 1, 1) == b - 1;
      WordFits(1, b, 1);
      forall i | 0 <= i < b ensures Steps(1, 1, b)[i] == Int(i + 1) {
      }
      assert RangeOf([b]) == Done(Steps(1, 1, b));
    }
  }

  // ---- Partition and Flatten ----

  /** The windows of length n at every d-th place. */
  function Windows(s: seq<Token>, n: nat, d: nat): seq<Token>
    requires n > 0 && d > 0
    decreases |s|
  {
    if |s| < n then []
    else [Arr(s[..n])] + if d <= |s| then Windows(s[d..], n, d) else []
  }

  /** The number of windows, as the code computes it. */
  lemma {:induction false} WindowCount(s: seq<Token>, n: nat, d: nat)
    requires n > 0 && d > 0
    ensures |Windows(s, n, d)| == if |s| < n then 0 else (|s| - n) / d + 1
    decreases |s|
  {
    if |s| >= n {
      if d <= |s| {
        WindowCount(s[d..], n, d);
      }
      if d + n <= |s| {
        OneStepLess(|s| - n, d);
      } else {
        SmallQuotient(|s| - n, d);
      }
    }
  }

  lemma {:induction false} WindowAt(s: seq<Token>, n: nat, d: nat, j: nat)
    requires n > 0 && d > 0 && j < |Windows(s, n, d)|
    ensures j * d + n <= |s| && Windows(s, n, d)[j] == Arr(s[j * d..j * d + n])
    decreases j
  {
    hide Windows;
    WindowsStep(s, n, d);
    if j == 0 {
      NoneTimes(j, d);
    } else {
      WindowAt(s[d..], n, d, j - 1);
      NextMultiple(j - 1, d);
      NotNegative(j - 1, d);
      SliceBehind(s, d, (j - 1) * d, n);
    }
  }

  lemma WindowsStep(s: seq<Token>, n: nat, d: nat)
    requires n > 0 && d > 0
    ensures Windows(s, n, d) == if |s| < n then []
                                else [Arr(s[..n])] + if d <= |s| then Windows(s[d..], n, d) else []
  {}

  lemma NotNegative(j: nat, d: nat)
    ensures j * d >= 0
  {
  }

  lemma SliceBehind(s: seq<Token>, d: nat, at: nat, n: nat)
    requires d + at + n <= |s|
    ensures s[d..][at..at + n] == s[at + d..at + d + n]
  {
  }

  /** Every sum that the loop over the windows forms fits a word. */
  predicate WindowsFit(s: seq<Token>, n: nat, d: nat)
    requires n > 0 && d > 0
  {
    Fits64(|Windows(s, n, d)| * d + n)
  }

  /** It is enough that the length and the stride together do, */
  lemma StrideFits(s: seq<Token>, n: nat, d: nat)
    requires n > 0 && d > 0 && Fits64(n) && Fits64(|s| + d)
    ensures WindowsFit(s, n, d)
  {
    var m := |Windows(s, n, d)|;
    if m > 0 {
      WindowAt(s, n, d, m - 1);
      NextMultiple(m - 1, d);
    } else {
      NoneTimes(m, d);
    }
    hide Windows;
  }

  lemma NoneTimes(m: int, d: int)
    requires m == 0
    ensures m * d == 0
  {
  }

  /** and windows side by side need no more than twice the length. */
  lemma SideBySideFits(s: seq<Token>, n: nat)
    requires n > 0 && Fits64(n) && Fits64(2 * |s|)
    ensures WindowsFit(s, n, n)
  {
    if n <= |s| { StrideFits(s, n, n); }
  }

  /** The loop has got to `start`: that many windows lie behind it, or the sum has wrapped. */
  ghost predicate Reached(s: seq<Token>, n: nat, d: nat, result: seq<Token>, start: int)
    requires n > 0 && d > 0
  {
    && Fits64(start)
    && (start < 0 ==> |Windows(s, n, d)| * d > INT64_MAX)
    && (start >= 0 ==> start == |result| * d && Windows(s, n, d) == result + WindowsFrom(s, start, n, d))
  }

  lemma OneWindowMore(s: seq<Token>, n: nat, d: nat, result: seq<Token>, start: int)
    requires n > 0 && d > 0 && Fits64(|s|) && Fits64(d) && start >= 0 && start + n <= |s|
    requires Reached(s, n, d, result, start)
    ensures Reached(s, n, d, result + [Arr(s[start..start + n])], Wrap(start + d))
    ensures Wrap(start + d) == start + d || Wrap(start + d) < 0
  {
    hide Windows, WindowsFrom, Wrap;
    NextWindow(s, start, n, d);
    NextMultiple(|result|, d);
    WrapsOnce(start + d);
    if start + d > |s| { BeyondTheEnd(s, start + d, n, d); }
  }

  /** A test that passes although the window does not lie in the array. */
  lemma OutsideStrays(s: seq<Token>, n: nat, d: nat, result: seq<Token>, start: int)
    requires n > 0 && d > 0 && n <= |s| && Fits64(|s|) && Reached(s, n, d, result, start)
    requires Wrap(start + n) <= |s| && (start < 0 || start + n > |s|)
    ensures !WindowsFit(s, n, d)
  {
    hide Windows, WindowsFrom, Wrap;
    if start >= 0 { NoWindow(s, start, n, d); }
  }

  lemma AllReached(s: seq<Token>, n: nat, d: nat, result: seq<Token>, start: int)
    requires n > 0 && d > 0 && n <= |s| && Fits64(|s|) && Reached(s, n, d, result, start)
    requires Wrap(start + n) > |s|
    ensures result == Windows(s, n, d) && WindowsFit(s, n, d)
  {
    hide Windows, WindowsFrom;
    WrapsOnce(start + n);
    if start >= 0 && start + n > |s| { NoWindow(s, start, n, d); }
    hide Wrap;
  }

  /** In words, as the code does it. Where a sum wraps around it becomes negative, passes the
      test, and the loop reads outside of the array. */
  method Partition(src: seq<Token>, n: int, d: int) returns (r: Outcome)
    requires Fits64(|src|) && Fits64(n) && Fits64(d)
    ensures r == if n <= 0 || d <= 0 then Error("RangeCheck")
                 else if WindowsFit(src, n, d) then Done(Windows(src, n, d)) else Strays
  {
    if n <= 0 || d <= 0 { return Error("RangeCheck"); }
    var result: seq<Token> := [];
    var sz := |src|;
    StartReached(src, n, d);
    hide Windows, WindowsFit, Reached, Wrap;
    if sz >= n {
      var start := 0;
      while Wrap(start + n) <= sz
        invariant Reached(src, n, d, result, start)
        decreases if 0 <= start <= sz then sz - start + 1 else if start < 0 then 0 else 1
      {
        if start < 0 || start + n > sz {
          OutsideStrays(src, n, d, result, start);
          return Strays;
        }
        OneWindowMore(src, n, d, result, start);
        var part := Window(src, start, n);
        result := result + [Arr(part)];
        start := Wrap(start + d);
      }
      AllReached(src, n, d, result, start);
    }
    return Done(result);
  }

  lemma StartReached(s: seq<Token>, n: nat, d: nat)
    requires n > 0 && d > 0 && Fits64(n)
    ensures Reached(s, n, d, [], 0)
    ensures n > |s| ==> Windows(s, n, d) == [] && WindowsFit(s, n, d)
  {
    assert s[0..] == s && 0 * d == 0;
  }

  lemma BeyondTheEnd(s: seq<Token>, start: nat, n: nat, d: nat)
    requires n > 0 && d > 0 && start > |s|
    ensures WindowsFrom(s, start, n, d) == []
  {}

  /** An example in which a sum wraps around: there is one window. */
  lemma PartitionStrays()
    ensures
      var s := [Int(1), Int(2), Int(3)];
      Windows(s, 1, INT64_MAX) == [Arr([Int(1)])] && !WindowsFit(s, 1, INT64_MAX)
  {
    assert [Int(1), Int(2), Int(3)][..1] == [Int(1)];
  }

  function WindowsFrom(s: seq<Token>, start: nat, n: nat, d: nat): seq<Token>
    requires n > 0 && d > 0
  {
    if start <= |s| then Windows(s[start..], n, d) else []
  }

  lemma NextWindow(s: seq<Token>, start: nat, n: nat, d: nat)
    requires n > 0 && d > 0 && start + n <= |s|
    ensures WindowsFrom(s, start, n, d) == [Arr(s[start..start + n])] + WindowsFrom(s, start + d, n, d)
  {
    assert s[start..][..n] == s[start..start + n];
    if start + d <= |s| { assert s[start..][d..] == s[start + d..]; }
  }

  lemma NoWindow(s: seq<Token>, start: nat, n: nat, d: nat)
    requires n > 0 && d > 0 && start + n > |s|
    ensures WindowsFrom(s, start, n, d) == []
  {
  }

  method Window(src: seq<Token>, start: nat, n: nat) returns (part: seq<Token>)
    requires start + n <= |src|
    ensures part == src[start..start + n]
  {
    part := [];
    for k := 0 to n
      invariant part == src[start..start + k]
    {
      part := part + [src[start + k]];
    }
  }

  /** One level of arrays is spliced in. */
  function Flattened(ts: seq<Token>): seq<Token> {
    if ts == [] then [] else Spliced(ts[0]) + Flattened(ts[1..])
  }

  function Spliced(t: Token): seq<Token> {
    if t.Arr? then t.items else [t]
  }

  lemma {:induction false} FlattenedAppend(a: seq<Token>, b: seq<Token>)
    ensures Flattened(a + b) == Flattened(a) + Flattened(b)
    decreases |a|
  {
    if a == [] {
      assert a + b == b;
    } else {
      FlattenedAppend(a[1..], b);
      assert (a + b)[1..] == a[1..] + b;
      assert Flattened(a + b) == Spliced(a[0]) + Flattened(a[1..] + b);
    }
  }

  method Flatten(src: seq<Token>) returns (result: seq<Token>)
    ensures result == Flattened(src)
  {
    result := [];
    hide Flattened;
    for i := 0 to |src|
      invariant Flattened(src) == result + Flattened(src[i..])
    {
      var t := src[i];
      FlattenedStep(src[i..]);
      assert src[i..][1..] == src[i + 1..];
      ghost var before := result;
      if t.Arr? {
        for j := 0 to |t.items|
          invariant result == before + t.items[..j]
        {
          result := result + [t.items[j]];
        }
      } else {
        result := result + [t];
      }
      assert result == before + Spliced(t);
    }
    FlattenedStep([]);
  }

  /** A nested array's items take its place; what is no array is kept. */
  lemma FlattenedAround(a: seq<Token>, t: Token, b: seq<Token>)
    ensures Flattened(a + [t] + b)
            == (if t.Arr? then Flattened(a) + t.items + Flattened(b) else Flattened(a) + [t] + Flattened(b))
  {
    FlattenedAppend(a + [t], b);
    FlattenedAppend(a, [t]);
    FlattenedStep([t]);
    NothingFlattened();
  }

  /** An array without arrays in it stays as it is. */
  lemma {:induction false} FlattenedFlat(ts: seq<Token>)
    requires forall t :: t in ts ==> !t.Arr?
    ensures Flattened(ts) == ts
  {
    if ts != [] {
      FlattenedFlat(ts[1..]);
    }
  }

  lemma FlattenedStep(ts: seq<Token>)
    ensures Flattened(ts) == if ts == [] then [] else Spliced(ts[0]) + Flattened(ts[1..])
  {}

  /** The length of what fills windows of length n. */
  function Filled(size: nat, n: nat): nat
    requires n > 0
  {
    n * (size / n)
  }

  lemma FilledAfter(size: nat, n: nat)
    requires n > 0
    ensures Filled(size, n) <= size
    ensures if size >= n then Filled(size, n) == n + Filled(size - n, n) else Filled(size, n) == 0
  {
    assert size == n * (size / n) + size % n;
    if size >= n {
      OneStepLess(size, n);
      assert n * ((size - n) / n + 1) == n * ((size - n) / n) + n;
    } else {
      SmallQuotient(size, n);
    }
  }

  /** Cutting into windows side by side and flattening gives back all that fills a window. */
  lemma {:induction false} FlattenPartition(s: seq<Token>, n: nat)
    requires n > 0
    ensures Filled(|s|, n) <= |s| && Flattened(Windows(s, n, n)) == s[..Filled(|s|, n)]
    decreases |s|
  {
    hide Filled, Flattened;
    FilledAfter(|s|, n);
    if |s| >= n {
      var rest := s[n..];
      FlattenPartition(rest, n);
      FlattenWindow(s, n);
      hide Windows;
      assert s[..n] + rest[..Filled(|rest|, n)] == s[..Filled(|s|, n)];
    } else {
      assert Flattened([]) == [] by { NothingFlattened(); }
    }
  }

  lemma NothingFlattened()
    ensures Flattened([]) == []
  {}

  lemma FlattenWindow(s: seq<Token>, n: nat)
    requires 0 < n <= |s|
    ensures Flattened(Windows(s, n, n)) == s[..n] + Flattened(Windows(s[n..], n, n))
  {}

  // ---- Transpose ----

  /** All rows must be arrays; then they must have the same length. */
  function TransposeOf(rows: seq<Token>): Outcome {
    if rows == [] then Done([])
    else if exists i :: 0 <= i < |rows| && !rows[i].Arr? then Error("ArgumentType")
    else if exists i :: 0 <= i < |rows| && |rows[i].items| != |rows[0].items| then Error("RangeCheck")
    else Done(Columns(rows, |rows[0].items|))
  }

  function Columns(rows: seq<Token>, n: nat): (r: seq<Token>)
    requires Rectangular(rows, n)
    ensures |r| == n && forall j :: 0 <= j < n ==> r[j] == Arr(Column(rows, j))
  {
    seq(n, j requires 0 <= j < n => Arr(Column(rows, j)))
  }

  /** Row i of column j is what was column j of row i. */
  lemma TransposedCells(rows: seq<Token>, n: nat, i: nat, j: nat)
    requires Rectangular(rows, n) && i < |rows| && j < n
    ensures rows[i] in rows && TransposeOf(rows).Done?
    ensures
      var cols := TransposeOf(rows).items;
      && |cols| == n && cols[j].Arr? && |cols[j].items| == |rows|
      && cols[j].items[i] == rows[i].items[j]
  {
    assert forall k :: 0 <= k < |rows| ==> rows[k] in rows;
  }

  /** Transposing twice gives the matrix back exactly when it has no rows or some column. */
  lemma TransposeTwice(rows: seq<Token>)
    requires rows == [] || (rows[0].Arr? && Rectangular(rows, |rows[0].items|))
    ensures TransposeOf(rows).Done?
    ensures TransposeOf(TransposeOf(rows).items) == Done(rows) <==>
            rows == [] || |rows[0].items| > 0
  {
    if rows != [] {
      var n := |rows[0].items|;
      forall i | 0 <= i < |rows| ensures rows[i].Arr? && |rows[i].items| == n {
        assert rows[i] in rows;
      }
      var cols := TransposeOf(rows).items;
      assert cols == Columns(rows, n);
      if n > 0 {
        assert |cols[0].items| == |rows|;
        var back := Columns(cols, |rows|);
        assert TransposeOf(cols) == Done(back);
        forall i | 0 <= i < |rows| ensures back[i] == rows[i] {
          assert Column(cols, i) == rows[i].items;
        }
      } else {
        assert cols == [];
      }
    }
  }

  method Transpose(src: seq<Token>) returns (r: Outcome)
    ensures r == TransposeOf(src)
  {
    if |src| == 0 { return Done([]); }
    for i := 0 to |src|
      invariant forall k :: 0 <= k < i ==> src[k].Arr?
    {
      if !src[i].Arr? { return Error("ArgumentType"); }
    }
    var m, n := |src|, |src[0].items|;
    for i := 0 to m
      invariant forall k :: 0 <= k < i ==> |src[k].items| == n
    {
      if |src[i].items| != n { return Error("RangeCheck"); }
    }
    var cells := new Token[n, m]((j, k) => Mark);
    for k := 0 to m
      invariant forall x, y :: 0 <= x < n && 0 <= y < k ==> cells[x, y] == src[y].items[x]
    {
      for l := 0 to n
        invariant forall x, y :: 0 <= x < n && 0 <= y < k ==> cells[x, y] == src[y].items[x]
        invariant forall x :: 0 <= x < l ==> cells[x, k] == src[k].items[x]
      {
        cells[l, k] := src[k].items[l];
      }
    }
    var result := seq(n, j requires 0 <= j < n reads cells =>
                           Arr(seq(m, k requires 0 <= k < m reads cells => cells[j, k])));
    assert forall j :: 0 <= j < n ==> result[j].items == Column(src, j);
    return Done(result);
  }
}
