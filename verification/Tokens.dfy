/** Tokens of the interpreter, and the slots of its execution stack. */
module Tokens {

  datatype Option<+T> = None | Some(value: T)

  type Name = string

  /** The built-in functions that the model covers. */
  datatype Op =
    | Pop | Dup | Exch | Add | Sub | If | Ifelse | Exec | Def
    | Repeat | For | Forall | ForallIndexed | Loop
    | Map | MapIndexed | MapThread
    | Exit | Return | Stop | Stopped

  /** A token. `Nam` is an executable name, `Lit` a literal one. Procedure bodies are
      immutable values. */
  datatype Token =
    | Int(i: int)
    | Bool(b: bool)
    | Mark
    | Lit(name: Name)
    | Nam(name: Name)
    | Arr(items: seq<Token>)
    | Proc(items: seq<Token>)
    | LitProc(items: seq<Token>)
    | Func(op: Op)

  /** Every type is executable unless its constructor says otherwise; among the modelled
      types only literals and marks say so. Numbers, booleans and arrays are executable:
      they reach the operand stack through the execution stack. */
  predicate Executable(t: Token) {
    !t.Lit? && !t.Mark?
  }

  /** Type markers on top of the iteration frames. */
  datatype Marker = IIterate | IRepeat | IFor | IForall | IForallIndexed | ILoop
                  | IMap | IMapIndexed | IMapThread

  /** A slot of the execution stack. Markers are internal: no program token is one. */
  datatype Slot = Tok(t: Token) | Marked(m: Marker)

  const ISTOPPED: Name := "::stopped"

  /** The name under which a function reports its errors. */
  function OpName(op: Op): Name {
    match op
    case Pop => "pop"
    case Dup => "dup"
    case Exch => "exch"
    case Add => "add"
    case Sub => "sub"
    case If => "if"
    case Ifelse => "ifelse"
    case Exec => "exec"
    case Def => "def_"
    case Repeat => "repeat"
    case For => "for"
    case Forall => "forall"
    case ForallIndexed => "forallindexed"
    case Loop => "loop"
    case Map => "Map_a_p"
    case MapIndexed => "MapIndexed_a_p"
    case MapThread => "MapThread_a_p"
    case Exit => "exit"
    case Return => "return"
    case Stop => "stop"
    case Stopped => "stopped"
  }

  const INTERPRETER: Name := "SLIInterpreter::execute"

  const INT64_MIN := -0x8000_0000_0000_0000
  const INT64_MAX := 0x7fff_ffff_ffff_ffff

  predicate Fits64(i: int) {
    INT64_MIN <= i <= INT64_MAX
  }

  /** The number of 64-bit words. */
  const WORD := 0x1_0000_0000_0000_0000

  /** The signed word that a sum or difference leaves: what does not fit wraps around. */
  function Wrap(x: int): (r: int)
    ensures Fits64(r) && (r == x <==> Fits64(x))
  {
    (x - INT64_MIN) % WORD + INT64_MIN
  }

  /** One word too far either way. */
  lemma WrapsOnce(x: int)
    ensures INT64_MAX < x <= INT64_MAX + WORD ==> Wrap(x) == x - WORD
    ensures INT64_MIN - WORD <= x < INT64_MIN ==> Wrap(x) == x + WORD
  {}

  type Dictionary = map<Name, Token>

  /** Top-down search; the last dictionary is searched first. */
  function Lookup(dicts: seq<Dictionary>, n: Name): Option<Token> {
    if dicts == [] then None
    else
      var top := dicts[|dicts| - 1];
      if n in top then Some(top[n]) else Lookup(dicts[..|dicts| - 1], n)
  }

  /** The dictionary at i binds n, and none above it does. */
  predicate Topmost(dicts: seq<Dictionary>, n: Name, i: nat) {
    i < |dicts| && n in dicts[i] && forall j :: i < j < |dicts| ==> n !in dicts[j]
  }

  lemma {:induction false} LookupInTopmost(dicts: seq<Dictionary>, n: Name, i: nat)
    requires Topmost(dicts, n, i)
    ensures Lookup(dicts, n) == Some(dicts[i][n])
  {
    var k := |dicts| - 1;
    if i < k { LookupInTopmost(dicts[..k], n, i); }
  }

  lemma {:induction false} LookupOfUnbound(dicts: seq<Dictionary>, n: Name)
    requires forall d :: d in dicts ==> n !in d
    ensures Lookup(dicts, n) == None
  {
    if dicts != [] {
      assert dicts[|dicts| - 1] in dicts;
      LookupOfUnbound(dicts[..|dicts| - 1], n);
    }
  }

  lemma {:induction false} TopmostExists(dicts: seq<Dictionary>, n: Name, d: Dictionary) returns (i: nat)
    requires d in dicts && n in d
    ensures Topmost(dicts, n, i)
  {
    i := |dicts| - 1;
    if n !in dicts[i] { i := TopmostExists(dicts[..i], n, d); }
  }

  /** The search gives the value in the topmost dictionary that binds n, and nothing exactly
      if there is none. */
  lemma LookupIsTopmost(dicts: seq<Dictionary>, n: Name)
    ensures Lookup(dicts, n).None? <==> forall d :: d in dicts ==> n !in d
    ensures Lookup(dicts, n).Some? ==> exists i: nat :: Topmost(dicts, n, i)
    ensures forall i: nat :: Topmost(dicts, n, i) ==> Lookup(dicts, n) == Some(dicts[i][n])
  {
    hide Lookup;
    if d :| d in dicts && n in d {
      var i := TopmostExists(dicts, n, d);
      LookupInTopmost(dicts, n, i);
    } else {
      LookupOfUnbound(dicts, n);
    }
    forall i: nat | Topmost(dicts, n, i) ensures Lookup(dicts, n) == Some(dicts[i][n]) {
      LookupInTopmost(dicts, n, i);
    }
  }
}
