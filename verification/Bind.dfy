/** `bind` replaces names by the functions they resolve to, in a body and all bodies nested
    in it, and does not change what the body computes. */
module Binding {
  import opened Tokens
  import opened Machine
  import opened Runs

  // ---- bind ----

  function BindToken(w: World, t: Token): Token
    decreases t, 0
  {
    match t
    case Nam(n) =>
      var v := Find(w, n);
      if v.Some? && v.value.Func? then v.value else t
    case Proc(items) => Proc(BindBody(w, items))
    case LitProc(items) => LitProc(BindBody(w, items))
    case _ => t
  }

  function BindBody(w: World, body: seq<Token>): (r: seq<Token>)
    ensures |r| == |body|
    ensures forall k :: 0 <= k < |body| ==> r[k] == BindToken(w, body[k])
    decreases body, 1
  {
    if body == [] then []
    else [BindToken(w, body[0])] + BindBody(w, body[1..])
  }

  /** The body is walked once and each slot is overwritten where it lies. */
  method Bind(w: World, body: seq<Token>) returns (r: seq<Token>)
    ensures r == BindBody(w, body)
    decreases body
  {
    r := body;
    for k := 0 to |body|
      invariant |r| == |body|
      invariant forall i :: 0 <= i < k ==> r[i] == BindToken(w, body[i])
      invariant forall i :: k <= i < |body| ==> r[i] == body[i]
    {
      var slot := r[k];
      match slot {
        case Nam(n) =>
          var resolved := Find(w, n);
          if resolved.Some? && resolved.value.Func? {
            r := r[k := resolved.value];
          }
        case Proc(items) =>
          var inner := Bind(w, items);
          r := r[k := Proc(inner)];
        case LitProc(items) =>
          var inner := Bind(w, items);
          r := r[k := LitProc(inner)];
        case _ =>
      }
    }
  }

  /** Binding twice is binding once. */
  lemma {:induction false} BindIsIdempotent(w: World, body: seq<Token>)
    ensures BindBody(w, BindBody(w, body)) == BindBody(w, body)
    decreases body
  {
    var b := BindBody(w, body);
    forall k | 0 <= k < |body| ensures BindToken(w, b[k]) == b[k] {
      var t := body[k];
      if t.Proc? || t.LitProc? {
        BindIsIdempotent(w, t.items);
      }
    }
  }

  // ---- the relation between a token and its bound form ----

  type Replaced = map<Name, Op>

  predicate Bound(m: Replaced, t: Token, u: Token)
    decreases t
  {
    match t
    case Nam(n) => u == t || (n in m && u == Func(m[n]))
    case Arr(a) => u.Arr? && |u.items| == |a| && forall i :: 0 <= i < |a| ==> Bound(m, a[i], u.items[i])
    case Proc(a) => u.Proc? && |u.items| == |a| && forall i :: 0 <= i < |a| ==> Bound(m, a[i], u.items[i])
    case LitProc(a) => u.LitProc? && |u.items| == |a| && forall i :: 0 <= i < |a| ==> Bound(m, a[i], u.items[i])
    case _ => u == t
  }

  predicate BoundAll(m: Replaced, a: seq<Token>, b: seq<Token>) {
    |a| == |b| && forall i :: 0 <= i < |a| ==> Bound(m, a[i], b[i])
  }

  predicate BoundDictionary(m: Replaced, d: Dictionary, e: Dictionary) {
    d.Keys == e.Keys && forall n :: n in d ==> Bound(m, d[n], e[n])
  }

  predicate BoundDictionaries(m: Replaced, ds: seq<Dictionary>, es: seq<Dictionary>) {
    |ds| == |es| && forall i :: 0 <= i < |ds| ==> BoundDictionary(m, ds[i], es[i])
  }

  predicate BoundWorld(m: Replaced, w: World, v: World) {
    && BoundAll(m, w.ost, v.ost)
    && BoundDictionaries(m, w.below, v.below)
    && BoundDictionary(m, w.current, v.current)
    && w.err == v.err
  }

  predicate BoundKind(m: Replaced, k: Kind, l: Kind) {
    match k
    case KForall(a, idx) => l.KForall? && BoundAll(m, a, l.items) && l.idx == idx
    case KForallIndexed(a, limit, count) =>
      l.KForallIndexed? && BoundAll(m, a, l.items) && l.limit == limit && l.count == count
    case KMap(indexed, saved, target, at) =>
      l.KMap? && l.indexed == indexed && l.saved == saved && BoundAll(m, target, l.target) && l.at == at
    case KMapThread(saved, rows, target, at) =>
      && l.KMapThread? && l.saved == saved && BoundAll(m, rows, l.rows)
      && BoundAll(m, target, l.target) && l.at == at
    case _ => l == k
  }

  predicate BoundFrame(m: Replaced, f: Frame, g: Frame) {
    match f
    case TokF(t) => g.TokF? && Bound(m, t, g.t)
    case Walk(k, p, pos) => g.Walk? && BoundKind(m, k, g.kind) && BoundAll(m, p, g.proc) && g.pos == pos
  }

  predicate BoundFrames(m: Replaced, fs: seq<Frame>, gs: seq<Frame>) {
    |fs| == |gs| && forall i :: 0 <= i < |fs| ==> BoundFrame(m, fs[i], gs[i])
  }

  predicate BoundState(m: Replaced, s: State, t: State) {
    BoundWorld(m, s.w, t.w) && BoundFrames(m, s.fs, t.fs)
  }

  predicate BoundOut(m: Replaced, o: Out, q: Out) {
    BoundWorld(m, o.w, q.w) && BoundFrames(m, o.push, q.push)
  }

  lemma {:induction false} BoundRefl(m: Replaced, t: Token)
    ensures Bound(m, t, t)
    decreases t
  {
    if t.Arr? || t.Proc? || t.LitProc? {
      forall i | 0 <= i < |t.items| ensures Bound(m, t.items[i], t.items[i]) {
        BoundRefl(m, t.items[i]);
      }
    }
  }

  lemma BoundReflAny(m: Replaced)
    ensures forall t :: Bound(m, t, t)
  {
    forall t ensures Bound(m, t, t) { BoundRefl(m, t); }
  }

  lemma BoundReflWorld(m: Replaced, w: World)
    ensures BoundWorld(m, w, w)
  {
    BoundReflAny(m);
  }

  lemma BoundReflFrames(m: Replaced, fs: seq<Frame>)
    ensures BoundFrames(m, fs, fs)
  {
    BoundReflAny(m);
  }

  /** The names that occur in a body, at any depth. */
  function Names(body: seq<Token>): set<Name>
    decreases body
  {
    if body == [] then {}
    else
      (match body[0]
       case Nam(n) => {n}
       case Proc(items) => Names(items)
       case LitProc(items) => Names(items)
       case _ => {}) + Names(body[1..])
  }

  /** What bind replaces in the body. */
  function ReplacedIn(w: World, body: seq<Token>): Replaced {
    map n | n in Names(body) && Find(w, n).Some? && Find(w, n).value.Func? :: Find(w, n).value.op
  }

  lemma {:induction false} BodyIsBound(w: World, body: seq<Token>, m: Replaced)
    requires forall n :: n in ReplacedIn(w, body) ==> n in m && m[n] == ReplacedIn(w, body)[n]
    ensures BoundAll(m, body, BindBody(w, body))
    decreases body
  {
    if body != [] {
      var t := body[0];
      assert Names(body[1..]) <= Names(body);
      BodyIsBound(w, body[1..], m);
      if t.Proc? || t.LitProc? {
        assert Names(t.items) <= Names(body);
        BodyIsBound(w, t.items, m);
      } else {
        BoundRefl(m, t);
        if t.Nam? { assert t.name in Names(body); }
      }
    }
  }

  /** Exactly the names that resolve to functions are gone, at every depth. */
  lemma {:induction false} BindReplacesNames(w: World, body: seq<Token>)
    ensures Names(BindBody(w, body)) == Names(body) - ReplacedIn(w, body).Keys
    decreases body
  {
    if body != [] {
      var t, rest := body[0], body[1..];
      var u := BindToken(w, t);
      assert BindBody(w, body) == [u] + BindBody(w, rest);
      BindReplacesNames(w, rest);
      if t.Proc? || t.LitProc? { BindReplacesNames(w, t.items); }
      NamesSplit(t, rest);
      NamesSplit(u, BindBody(w, rest));
      assert [t] + rest == body;
      hide BindBody, Names, Find;
      forall n ensures n in Names(BindBody(w, body)) <==> n in Names(body) - ReplacedIn(w, body).Keys {
      }
    }
  }

  /** The names in a token. */
  function NamesOf(t: Token): set<Name> {
    match t
    case Nam(n) => {n}
    case Proc(items) => Names(items)
    case LitProc(items) => Names(items)
    case _ => {}
  }

  lemma NamesSplit(t: Token, rest: seq<Token>)
    ensures Names([t] + rest) == NamesOf(t) + Names(rest)
  {
    assert ([t] + rest)[1..] == rest;
  }
}
