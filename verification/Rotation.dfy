/** `roll` on the operand stack and `Rotate` on arrays: index arithmetic and the rotation in
    place. */
module Rotation {
  import opened Arithmetic
  import opened Tokens

  /** The last r elements come first. */
  function Rotated<T>(s: seq<T>, r: nat): seq<T>
    requires r <= |s|
  {
    s[|s| - r..] + s[..|s| - r]
  }

  /** The rotation by any integer: element i goes to place i + k, counted around. */
  function Turned<T>(s: seq<T>, k: int): seq<T> {
    if s == [] then s else Rotated(s, k % |s|)
  }

  lemma TurnedAt<T>(s: seq<T>, k: int, i: nat)
    requires i < |s|
    ensures |Turned(s, k)| == |s| && Turned(s, k)[(i + k) % |s|] == s[i]
  {
    var n := |s|;
    var r := k % n;
    Wraps(i, k, n);
  }

  lemma Wraps(i: nat, k: int, n: nat)
    requires i < n
    ensures (i + k) % n == if i + k % n < n then i + k % n else i + k % n - n
  {
    var q, r := k / n, k % n;
    assert i + k == q * n + (i + r);
    DivMod(i + k, n, if i + r < n then q else q + 1, if i + r < n then i + r else i + r - n);
  }

  /** Turning twice is turning once by the sum, for all integers. */
  lemma {:induction false} TurnsAdd<T>(s: seq<T>, a: int, b: int)
    ensures Turned(Turned(s, a), b) == Turned(s, a + b)
  {
    if s != [] {
      TurnedAt(s, a, 0);
      TurnedAt(s, a + b, 0);
      TurnedAt(Turned(s, a), b, 0);
      forall j | 0 <= j < |s| ensures Turned(Turned(s, a), b)[j] == Turned(s, a + b)[j] {
        TurnsAddAt(s, a, b, j);
      }
    }
  }

  lemma {:induction false} TurnsAddAt<T>(s: seq<T>, a: int, b: int, j: nat)
    requires j < |s|
    ensures |Turned(s, a + b)| == |s| && |Turned(Turned(s, a), b)| == |s|
    ensures Turned(Turned(s, a), b)[j] == Turned(s, a + b)[j]
  {
    hide Turned;
    var i, m := Around(a, b, j, |s|);
    TurnedTo(s, a + b, i, j);
    TurnedTo(s, a, i, m);
    TurnedTo(Turned(s, a), b, m, j);
  }

  lemma TurnedTo<T>(s: seq<T>, k: int, i: nat, j: nat)
    requires i < |s| && j < |s| && (i + k) % |s| == j
    ensures |Turned(s, k)| == |s| && Turned(s, k)[j] == s[i]
  {
    TurnedAt(s, k, i);
  }

  /** Where the element comes from that is at j after a turn by a and one by b. */
  lemma Around(a: int, b: int, j: nat, n: nat) returns (i: nat, m: nat)
    requires j < n
    ensures i < n && m < n && (i + (a + b)) % n == j && (i + a) % n == m && (m + b) % n == j
  {
    i := (j - (a + b)) % n;
    m := (i + a) % n;
    var q, p := (j - (a + b)) / n, (i + a) / n;
    DivMod(i + (a + b), n, -q, j);
    assert m + b == (-q - p) * n + j;
    DivMod(m + b, n, -q - p, j);
  }

  lemma TurnsBack<T>(s: seq<T>, k: int)
    ensures Turned(Turned(s, k), -k) == s
  {
    TurnsAdd(s, k, -k);
    if s != [] {
      assert 0 % |s| == 0;
    }
  }

  // ---- Rotate ----

  /** C++ `%`: the sign is that of the dividend. */
  function Remainder(x: int, m: nat): int
    requires m > 0
  {
    if x >= 0 then x % m else -((-x) % m)
  }

  /** The normalisation of `Rotate` is the mathematical modulus. */
  lemma NormalIsModulo(n: int, m: nat)
    requires m > 0
    ensures Remainder(Remainder(n, m) + m, m) == n % m
  {
    if n >= 0 {
      DivMod(n % m + m, m, 1, n % m);
    } else {
      var q, r := (-n) / m, (-n) % m;
      if r == 0 {
        DivMod(n, m, -q, 0);
        DivMod(m, m, 1, 0);
      } else {
        assert n == (-q - 1) * m + (m - r);
        DivMod(n, m, -q - 1, m - r);
        DivMod(m - r, m, 0, m - r);
      }
    }
  }

  // ---- roll ----

  /** How far `roll` turns the top n elements. For k < 0 the sum is one of unsigned words. */
  function RollAmount(n: nat, k: int): (r: nat)
    requires n > 0
    ensures r < n
  {
    if k >= 0 then k % n else ((n + k) % WORD) % n
  }

  /** The operands are 64-bit integers. */
  predicate Operands(n: nat, k: int) {
    Fits64(n) && Fits64(k)
  }

  /** The amount is the mathematical one exactly when the sum does not wrap around or n
      divides the size of a word. */
  lemma RollIsModulo(n: nat, k: int)
    requires n > 0 && Operands(n, k)
    ensures RollAmount(n, k) == k % n <==> (k >= 0 - n || WORD % n == 0)
  {
    if k < 0 {
      if n + k >= 0 {
        DivMod(n + k, WORD, 0, n + k);
        OneTurnMore(n, k);
      } else {
        DivMod(n + k, WORD, -1, WORD + n + k);
        WordMore(n, k);
      }
    }
  }

  lemma OneTurnMore(n: nat, k: int)
    requires n > 0
    ensures (n + k) % n == k % n
  {
    DivMod(n + k, n, k / n + 1, k % n);
  }

  /** Adding a word changes the remainder unless n divides it. */
  lemma WordMore(n: nat, k: int)
    requires n > 0
    ensures (WORD + n + k) % n == k % n <==> WORD % n == 0
  {
    var q, r, p, w := k / n, k % n, WORD / n, WORD % n;
    assert WORD + n + k == (p + q + 1) * n + (w + r);
    if w + r < n {
      DivMod(WORD + n + k, n, p + q + 1, w + r);
    } else {
      DivMod(WORD + n + k, n, p + q + 2, w + r - n);
    }
  }

  /** What `roll` makes of a stack, whose top is the last element. */
  function Rolled<T>(s: seq<T>, n: nat, k: int): seq<T>
    requires n <= |s|
  {
    if n == 0 then s else s[..|s| - n] + Rotated(s[|s| - n..], RollAmount(n, k))
  }

  /** What it should make of it. */
  function RollSpec<T>(s: seq<T>, n: nat, k: int): seq<T>
    requires n <= |s|
  {
    s[..|s| - n] + Turned(s[|s| - n..], k)
  }

  predicate Distinct<T(==)>(s: seq<T>) {
    forall i, j :: 0 <= i < j < |s| ==> s[i] != s[j]
  }

  lemma {:induction false} RollKeepsTheSpec<T>(s: seq<T>, n: nat, k: int)
    requires n <= |s| && Operands(n, k) && (n == 0 || k >= 0 - n || WORD % n == 0)
    ensures Rolled(s, n, k) == RollSpec(s, n, k)
  {
    if n > 0 { RollIsModulo(n, k); }
  }

  lemma {:induction false} RollBreaksTheSpec<T>(s: seq<T>, n: nat, k: int)
    requires n <= |s| && Operands(n, k) && !(n == 0 || k >= 0 - n || WORD % n == 0) && Distinct(s)
    ensures Rolled(s, n, k) != RollSpec(s, n, k)
  {
    hide Rotated, RollAmount, WORD;
    RollIsModulo(n, k);
    var top, p, r := s[|s| - n..], RollAmount(n, k), k % n;
    JoinedAgain(s[..|s| - n], Rotated(top, p), Rotated(top, r));
    if Rotated(top, p) == Rotated(top, r) { DistinctTurns(top, p, r); }
  }

  /** On stacks of distinct elements `roll` is the rotation exactly when the sum does not
      wrap around or n divides the size of a word. */
  lemma RollIsTurn<T>(s: seq<T>, n: nat, k: int)
    requires n <= |s| && Operands(n, k) && Distinct(s)
    ensures Rolled(s, n, k) == RollSpec(s, n, k) <==> (n == 0 || k >= 0 - n || WORD % n == 0)
  {
    if n == 0 || k >= 0 - n || WORD % n == 0 {
      RollKeepsTheSpec(s, n, k);
    } else {
      RollBreaksTheSpec(s, n, k);
    }
  }

  lemma DistinctTurns<T>(s: seq<T>, p: nat, r: nat)
    requires s != [] && Distinct(s) && p < |s| && r < |s| && Rotated(s, p) == Rotated(s, r)
    ensures p == r
  {
    var i, j := (|s| - p) % |s|, (|s| - r) % |s|;
    assert Rotated(s, p)[0] == s[if p == 0 then 0 else |s| - p];
    assert Rotated(s, r)[0] == s[if r == 0 then 0 else |s| - r];
  }

  /** In the range of a full turn either way, rolling back undoes rolling. */
  lemma {:induction false} RollBack<T>(s: seq<T>, n: nat, k: int)
    requires n <= |s| && Fits64(n) && 0 - n <= k <= n
    ensures |Rolled(s, n, k)| == |s| && Rolled(Rolled(s, n, k), n, -k) == s
  {
    hide RollAmount, Turned, Rotated;
    RollKeepsTheSpec(s, n, k);
    var t := Rolled(s, n, k);
    var top, below := s[|s| - n..], s[..|s| - n];
    var turned := Turned(top, k);
    assert t == below + turned;
    TurnsBack(top, k);
    TurnKeepsLength(top, k);
    RollKeepsTheSpec(t, n, -k);
    hide *;
    SpecOfJoin(below, turned, n, -k);
    assert below + top == s;
  }

  /** On distinct elements it does so exactly there, or where n divides the size of a word. */
  lemma RollBackExactly<T>(s: seq<T>, n: nat, k: int)
    requires n <= |s| && Operands(n, k) && Fits64(-k) && Distinct(s)
    ensures |Rolled(s, n, k)| == |s|
    ensures Rolled(Rolled(s, n, k), n, -k) == s <==> (n == 0 || 0 - n <= k <= n || WORD % n == 0)
  {
    if n > 0 { RollsBack(s, s[..|s| - n], s[|s| - n..], n, k); }
  }

  lemma RollsBack<T>(s: seq<T>, below: seq<T>, top: seq<T>, n: nat, k: int)
    requires 0 < n == |top| && s == below + top && Operands(n, k) && Fits64(-k) && Distinct(top)
    ensures |Rolled(s, n, k)| == |s|
    ensures Rolled(Rolled(s, n, k), n, -k) == s <==> (0 - n <= k <= n || WORD % n == 0)
  {
    hide *;
    AmountsCancel(n, k);
    TurnedBack(top, RollAmount(n, k), RollAmount(n, -k));
    RollTwice(below, top, n, k);
    JoinedAgain(below, top, Turned(top, RollAmount(n, k) + RollAmount(n, -k)));
  }

  lemma JoinedAgain<T>(below: seq<T>, top: seq<T>, turned: seq<T>)
    ensures below + turned == below + top <==> turned == top
  {
    if below + turned == below + top {
      assert (below + turned)[|below|..] == turned && (below + top)[|below|..] == top;
    }
  }

  lemma AmountsCancel(n: nat, k: int)
    requires n > 0 && Operands(n, k) && Fits64(-k)
    ensures (RollAmount(n, k) + RollAmount(n, -k)) % n == 0 <==> (0 - n <= k <= n || WORD % n == 0)
  {
    RollIsModulo(n, k);
    RollIsModulo(n, -k);
    Opposite(n, k);
    hide RollAmount;
    SumIsOpposite(n, k % n, (-k) % n, RollAmount(n, k), RollAmount(n, -k));
  }

  /** Two rolls turn the top by the sum of their amounts. */
  lemma RollTwice<T>(below: seq<T>, top: seq<T>, n: nat, k: int)
    requires 0 < n == |top|
    ensures |Rolled(below + top, n, k)| == |below + top|
    ensures Rolled(Rolled(below + top, n, k), n, -k)
            == below + Turned(top, RollAmount(n, k) + RollAmount(n, -k))
  {
    hide *;
    var r, t := RollAmount(n, k), RollAmount(n, -k);
    RollOfJoin(below, top, n, k);
    RollOfJoin(below, Turned(top, r), n, -k);
    TurnsAdd(top, r, t);
  }

  lemma RollOfJoin<T>(below: seq<T>, top: seq<T>, n: nat, k: int)
    requires 0 < n == |top|
    ensures |Turned(top, RollAmount(n, k))| == n
    ensures Rolled(below + top, n, k) == below + Turned(top, RollAmount(n, k))
  {
    var s, r := below + top, RollAmount(n, k);
    hide RollAmount;
    assert s[|s| - n..] == top && s[..|s| - n] == below;
    RotatedIsTurned(top, r);
    TurnKeepsLength(top, r);
  }

  lemma RotatedIsTurned<T>(s: seq<T>, r: nat)
    requires r < |s|
    ensures Rotated(s, r) == Turned(s, r)
  {
    DivMod(r, |s|, 0, r);
  }

  lemma TurnedBack<T>(s: seq<T>, r: nat, t: nat)
    requires s != [] && Distinct(s)
    ensures Turned(s, r + t) == s <==> (r + t) % |s| == 0
  {
    assert Rotated(s, 0) == s;
    if Turned(s, r + t) == s { DistinctTurns(s, (r + t) % |s|, 0); }
  }

  lemma Opposite(n: nat, k: int)
    requires n > 0
    ensures (k % n == 0 && (-k) % n == 0) || (k % n > 0 && (-k) % n == n - k % n)
  {
    if k % n == 0 {
      DivMod(-k, n, -(k / n), 0);
    } else {
      DivMod(-k, n, -(k / n) - 1, n - k % n);
    }
  }

  /** Where one amount is the mathematical one, the sum is a full turn exactly if the other is. */
  lemma SumIsOpposite(n: nat, p: nat, q: nat, r: nat, t: nat)
    requires r < n && t < n && ((p == 0 && q == 0) || (0 < p < n && q == n - p))
    ensures r == p ==> ((r + t) % n == 0 <==> t == q)
    ensures t == q ==> ((r + t) % n == 0 <==> r == p)
  {
    if r + t < n { DivMod(r + t, n, 0, r + t); } else { DivMod(r + t, n, 1, r + t - n); }
  }

  lemma SpecOfJoin<T>(below: seq<T>, top: seq<T>, n: nat, k: int)
    requires |top| == n
    ensures RollSpec(below + top, n, k) == below + Turned(top, k)
  {
    var s := below + top;
    assert s[..|s| - n] == below && s[|s| - n..] == top;
    hide Turned;
  }

  lemma TurnKeepsLength<T>(s: seq<T>, k: int)
    ensures |Turned(s, k)| == |s|
  {
  }

  /** An example out of range: three elements rolled by -4 come out as rolled by 0, not by -1. */
  lemma RollWrapsAround()
    ensures Rolled([1, 2, 3], 3, -4) == [1, 2, 3] && RollSpec([1, 2, 3], 3, -4) == [2, 3, 1]
  {
    assert (3 - 4) % WORD == WORD - 1 && (WORD - 1) % 3 == 0;
    assert (-4) % 3 == 2;
  }

  // ---- in place ----

  function Flipped<T>(s: seq<T>, lo: nat, hi: nat): (r: seq<T>)
    requires lo <= hi <= |s|
    ensures |r| == |s|
    ensures forall i :: 0 <= i < |s| ==> r[i] == if lo <= i < hi then s[lo + hi - 1 - i] else s[i]
  {
    seq(|s|, i requires 0 <= i < |s| => if lo <= i < hi then s[lo + hi - 1 - i] else s[i])
  }

  method ReverseRange<T>(a: array<T>, lo: nat, hi: nat)
    requires lo <= hi <= a.Length
    modifies a
    ensures a[..] == Flipped(old(a[..]), lo, hi)
  {
    var i, j := lo, hi;
    while i + 1 < j
      invariant lo <= i <= j + 1 && j <= hi && i - lo == hi - j
      invariant forall x :: 0 <= x < lo || hi <= x < a.Length || i <= x < j ==> a[x] == old(a[x])
      invariant forall x :: lo <= x < i || j <= x < hi ==> a[x] == old(a[lo + hi - 1 - x])
    {
      j := j - 1;
      a[i], a[j] := a[j], a[i];
      i := i + 1;
    }
  }

  /** The elements between first and middle and those between middle and last have changed
      places. */
  function Exchanged<T>(s: seq<T>, first: nat, middle: nat, last: nat): (r: seq<T>)
    requires first <= middle <= last <= |s|
    ensures |r| == |s|
    ensures forall i :: 0 <= i < |s| ==> r[i] == s[Source(first, middle, last, i)]
  {
    seq(|s|, i requires 0 <= i < |s| => s[Source(first, middle, last, i)])
  }

  /** Where the element comes from that is at i after the exchange. */
  function Source(first: nat, middle: nat, last: nat, i: nat): nat
    requires first <= middle <= last
  {
    if first <= i < first + (last - middle) then i + (middle - first)
    else if first + (last - middle) <= i < last then i - (last - middle)
    else i
  }

  lemma ThreeFlips<T>(s: seq<T>, first: nat, middle: nat, last: nat)
    requires first <= middle <= last <= |s|
    ensures Flipped(Flipped(Flipped(s, first, middle), middle, last), first, last)
            == Exchanged(s, first, middle, last)
  {
    var three := Flipped(Flipped(Flipped(s, first, middle), middle, last), first, last);
    var swapped := Exchanged(s, first, middle, last);
    forall i | 0 <= i < |s| ensures three[i] == swapped[i] {
      ThreeFlipsAt(s, first, middle, last, i);
    }
  }

  lemma ThreeFlipsAt<T>(s: seq<T>, first: nat, middle: nat, last: nat, i: nat)
    requires first <= middle <= last <= |s| && i < |s|
    ensures Flipped(Flipped(Flipped(s, first, middle), middle, last), first, last)[i]
            == Exchanged(s, first, middle, last)[i]
  {
    hide *;
    var one := Flipped(s, first, middle);
    var two := Flipped(one, middle, last);
    FlippedAt(two, first, last, i);
    FlippedAt(one, middle, last, Mirror(first, last, i));
    FlippedAt(s, first, middle, Mirror(middle, last, Mirror(first, last, i)));
    MirrorsAgree(first, middle, last, i);
  }

  function Mirror(lo: nat, hi: nat, i: nat): (j: nat)
    requires lo <= hi
    ensures j < hi || j == i
  {
    if lo <= i < hi then lo + hi - 1 - i else i
  }

  lemma FlippedAt<T>(s: seq<T>, lo: nat, hi: nat, i: nat)
    requires lo <= hi <= |s| && i < |s|
    ensures Flipped(s, lo, hi)[i] == s[Mirror(lo, hi, i)]
  {}

  lemma MirrorsAgree(first: nat, middle: nat, last: nat, i: nat)
    requires first <= middle <= last
    ensures Mirror(first, middle, Mirror(middle, last, Mirror(first, last, i))) == Source(first, middle, last, i)
  {}

  /** The elements between first and middle change places with those between middle and last. */
  method RotateRange<T>(a: array<T>, first: nat, middle: nat, last: nat)
    requires first <= middle <= last <= a.Length
    modifies a
    ensures a[..] == Exchanged(old(a[..]), first, middle, last)
  {
    ThreeFlips(a[..], first, middle, last);
    ReverseRange(a, first, middle);
    ReverseRange(a, middle, last);
    ReverseRange(a, first, last);
  }

  /** `roll` on the buffer of the stack, whose top is the last element. */
  method Roll<T>(a: array<T>, n: nat, k: int)
    requires n <= a.Length
    modifies a
    ensures a[..] == Rolled(old(a[..]), n, k)
  {
    hide *;
    ghost var s := a[..];
    if n == 0 {
      RollOfNone(s, k);
    } else {
      var r := Amount(n, k);
      var first, middle := a.Length - n, a.Length - r;
      ExchangeIsRoll(s, n, k, a.Length, r);
      assert Exchanged(s, first, middle, a.Length) == Rolled(s, n, k);
      RotateRange(a, first, middle, a.Length);
    }
  }

  lemma RollOfNone<T>(s: seq<T>, k: int)
    ensures Rolled(s, 0, k) == s
  {}

  lemma ExchangeIsRoll<T>(s: seq<T>, n: nat, k: int, size: nat, r: nat)
    requires 0 < n <= |s| == size && r == RollAmount(n, k)
    ensures Exchanged(s, size - n, size - r, size) == Rolled(s, n, k)
  {
    hide RollAmount, Exchanged, Rotated;
    ExchangeTurns(s, n, size, r);
    assert Exchanged(s, size - n, size - r, size) == Rolled(s, n, k);
  }

  lemma ExchangeTurns<T>(s: seq<T>, n: nat, size: nat, r: nat)
    requires r <= n <= |s| == size
    ensures Exchanged(s, size - n, size - r, size) == s[..size - n] + Rotated(s[size - n..], r)
  {
    var m := size - n;
    ExchangedParts(s, m, size - r, size);
    hide Exchanged;
    assert s[m..][n - r..] == s[size - r..] && s[m..][..n - r] == s[m..size - r];
  }

  lemma ExchangedParts<T>(s: seq<T>, first: nat, middle: nat, last: nat)
    requires first <= middle <= last == |s|
    ensures Exchanged(s, first, middle, last) == s[..first] + (s[middle..] + s[first..middle])
  {
  }

  /** The amount, with the unsigned sum written out. */
  method Amount(n: nat, k: int) returns (r: nat)
    requires n > 0
    ensures r == RollAmount(n, k) && r < n
  {
    r := if k >= 0 then k % n else ((n + k) % WORD) % n;
  }

  /** `Rotate`: a copy of the array is turned. */
  method Rotate<T>(src: seq<T>, n: int) returns (result: seq<T>)
    ensures result == Turned(src, n)
  {
    if |src| == 0 { return src; }
    var a := new T[|src|](i requires 0 <= i < |src| => src[i]);
    var m := |src|;
    var k := Remainder(Remainder(n, m) + m, m);
    NormalIsModulo(n, m);
    assert a[..] == src;
    if k > 0 {
      RotateRange(a, 0, m - k, m);
    }
    result := a[..];
  }
}
