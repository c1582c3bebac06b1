/** The plain data that flows out of the compiler: S-expression items, plan
    entries and their argument lists. In the JavaScript original these are
    nested arrays of primitives and `Var` instances; here they are one
    datatype, so that substitution is a total structural rewrite. */
module QueryValues {

  /** A JavaScript primitive as the parser delivers it. Numbers are opaque:
      nothing in the pipeline does arithmetic on them. */
  datatype Scalar = Str(s: string) | Num(x: real) | Bool(b: bool)

  /** A value inside an S-expression or a plan.
      `Var` is the placeholder class: two placeholders are equal exactly when
      their names are. `Null` only appears after substitution of an unbound
      placeholder. */
  datatype Value =
    | Prim(p: Scalar)
    | Var(name: string)
    | Null
    | List(items: seq<Value>)

  /** A string literal value. */
  function S(s: string): Value {
    Prim(Str(s))
  }

  /** The two-element array `[tag, payload]`. */
  function Pair(tag: string, payload: Value): Value {
    List([S(tag), payload])
  }

  /** The plan entry `[method, [arg1, ..., argN]]`. */
  function Call(name: string, args: seq<Value>): Value {
    List([S(name), List(args)])
  }

  /** A plan entry that the applier can take apart as `[method, params]`
      with a string method name and an argument array. */
  predicate IsCall(e: Value) {
    e.List? && |e.items| == 2 && e.items[0].Prim? && e.items[0].p.Str? && e.items[1].List?
  }

  function MethodOf(e: Value): string
    requires IsCall(e)
  {
    e.items[0].p.s
  }

  function ArgsOf(e: Value): seq<Value>
    requires IsCall(e)
  {
    e.items[1].items
  }

  predicate AllCalls(plan: seq<Value>) {
    forall i :: 0 <= i < |plan| ==> IsCall(plan[i])
  }

  lemma AllCallsAppend(a: seq<Value>, b: seq<Value>)
    requires AllCalls(a) && AllCalls(b)
    ensures AllCalls(a + b)
  {
    forall k | 0 <= k < |a + b| ensures IsCall((a + b)[k]) {
      if k < |a| { assert (a + b)[k] == a[k]; } else { assert (a + b)[k] == b[k - |a|]; }
    }
  }

  lemma AllCallsSlice(a: seq<Value>, i: nat, j: nat)
    requires AllCalls(a) && i <= j <= |a|
    ensures AllCalls(a[i..j])
  {
    forall k | 0 <= k < j - i ensures IsCall(a[i..j][k]) { assert a[i..j][k] == a[i + k]; }
  }

  /** Taking a call apart and putting it back together gives the same entry. */
  lemma CallParts(e: Value)
    requires IsCall(e)
    ensures Call(MethodOf(e), ArgsOf(e)) == e
  {
    assert e.items == [S(MethodOf(e)), List(ArgsOf(e))];
  }

  /** The names of all placeholders in a list, depth first, left to right. */
  function VarNames(vs: seq<Value>): seq<string>
    decreases vs
  {
    if vs == [] then [] else ValueVarNames(vs[0]) + VarNames(vs[1..])
  }

  function ValueVarNames(v: Value): seq<string>
    decreases v
  {
    match v
    case Var(n) => [n]
    case List(xs) => VarNames(xs)
    case _ => []
  }
}
