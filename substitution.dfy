/** Placeholder substitution (src/firestoreQueryUtil.js, replaceParamVars):
    every `Var` inside an argument list, at any depth, is replaced by its
    binding; an unbound one becomes `null` and is reported. */
module Substitution {
  import opened QueryValues

  /** One call of the not-found callback: the placeholder's name and the
      array it was found in. */
  datatype Miss = Miss(name: string, enclosing: seq<Value>)

  /** The rewritten list and the callbacks it fired, in order. */
  datatype Subst = Subst(out: seq<Value>, misses: seq<Miss>)

  /** The rewritten value and the callbacks it fired. */
  datatype Replaced = Replaced(value: Value, misses: seq<Miss>)

  /** replaceParamVars(params, vars, onVarNotFound). */
  function ReplaceParamVars(params: seq<Value>, vars: map<string, Value>): Subst
    decreases params, 1
  {
    ReplaceEach(params, params, vars)
  }

  /** The `map` over `items`, an end part of `params`; each callback is
      given the whole of `params`. */
  function ReplaceEach(items: seq<Value>, params: seq<Value>, vars: map<string, Value>): Subst
    decreases items, 0
  {
    if items == [] then Subst([], [])
    else
      var h := ReplaceValue(items[0], params, vars);
      var t := ReplaceEach(items[1..], params, vars);
      Subst([h.value] + t.out, h.misses + t.misses)
  }

  /** The callback of `map`: arrays are rewritten recursively, bound
      placeholders replaced, unbound ones nulled, all else kept. */
  function ReplaceValue(v: Value, params: seq<Value>, vars: map<string, Value>): Replaced
    decreases v, 0
  {
    match v
    case List(xs) =>
      var s := ReplaceParamVars(xs, vars);
      Replaced(List(s.out), s.misses)
    case Var(name) =>
      if name in vars then Replaced(vars[name], []) else Replaced(Null, [Miss(name, params)])
    case _ => Replaced(v, [])
  }

  /** The names reported by a list of callbacks. */
  function MissNames(ms: seq<Miss>): (r: seq<string>)
    ensures |r| == |ms|
    ensures forall i :: 0 <= i < |ms| ==> r[i] == ms[i].name
  {
    if ms == [] then [] else [ms[0].name] + MissNames(ms[1..])
  }

  /** The names among `names` that have no binding, in order. */
  function Unbound(names: seq<string>, vars: map<string, Value>): (r: seq<string>)
    ensures |r| <= |names|
    ensures forall i :: 0 <= i < |r| ==> r[i] !in vars
  {
    if names == [] then []
    else (if names[0] in vars then [] else [names[0]]) + Unbound(names[1..], vars)
  }

  lemma MissNamesAppend(a: seq<Miss>, b: seq<Miss>)
    ensures MissNames(a + b) == MissNames(a) + MissNames(b)
  {
  }

  lemma {:induction false} UnboundAppend(a: seq<string>, b: seq<string>, vars: map<string, Value>)
    ensures Unbound(a + b, vars) == Unbound(a, vars) + Unbound(b, vars)
    decreases |a|
  {
    if a != [] {
      UnboundAppend(a[1..], b, vars);
      assert (a + b)[0] == a[0] && (a + b)[1..] == a[1..] + b;
    } else {
      assert a + b == b;
    }
  }

  /** Each element is rewritten on its own: same length, non-placeholder
      scalars unchanged, a bound placeholder replaced by its binding as it
      is, an unbound one by null, and an array by its rewritten array. */
  lemma {:induction false} ReplaceElementwise(items: seq<Value>, params: seq<Value>, vars: map<string, Value>)
    ensures |ReplaceEach(items, params, vars).out| == |items|
    ensures forall i :: 0 <= i < |items| ==>
      ReplaceEach(items, params, vars).out[i] ==
        match items[i]
        case List(xs) => List(ReplaceParamVars(xs, vars).out)
        case Var(n) => if n in vars then vars[n] else Null
        case _ => items[i]
    decreases |items|
  {
    if items != [] {
      ReplaceElementwise(items[1..], params, vars);
      var r := ReplaceEach(items, params, vars).out;
      forall i | 0 <= i < |items|
        ensures r[i] == match items[i]
          case List(xs) => List(ReplaceParamVars(xs, vars).out)
          case Var(n) => if n in vars then vars[n] else Null
          case _ => items[i]
      {
        if i > 0 {
          assert r[i] == ReplaceEach(items[1..], params, vars).out[i - 1];
          assert items[i] == items[1..][i - 1];
        } else {
          assert r[0] == ReplaceValue(items[0], params, vars).value;
        }
      }
    }
  }

  /** Two lists have the same nesting shape: the same length, and arrays in
      the same places with the same shape. */
  predicate SameShape(a: seq<Value>, b: seq<Value>)
    decreases a
  {
    |a| == |b| &&
    forall i :: 0 <= i < |a| ==>
      (a[i].List? <==> b[i].List?) && (a[i].List? ==> SameShape(a[i].items, b[i].items))
  }

  /** Substitution keeps the shape of a list wherever it holds no
      placeholder bound to an array. */
  lemma {:induction false} ReplacePreservesShape(params: seq<Value>, vars: map<string, Value>)
    requires forall n :: n in vars ==> !vars[n].List?
    ensures SameShape(params, ReplaceParamVars(params, vars).out)
    decreases params
  {
    var r := ReplaceParamVars(params, vars).out;
    ReplaceElementwise(params, params, vars);
    forall i | 0 <= i < |params|
      ensures (params[i].List? <==> r[i].List?) && (params[i].List? ==> SameShape(params[i].items, r[i].items))
    {
      if params[i].List? {
        ReplacePreservesShape(params[i].items, vars);
      }
    }
  }

  /** Every array of `a` is still an array, of the same length and
      recursively so, at the same place in `b`; `b` may hold arrays where
      `a` held placeholders. */
  predicate ArraysKept(a: seq<Value>, b: seq<Value>)
    decreases a
  {
    |a| == |b| &&
    forall i :: 0 <= i < |a| ==> (a[i].List? ==> b[i].List? && ArraysKept(a[i].items, b[i].items))
  }

  /** Whatever the bindings, substitution keeps the length of the list at
      every nesting level: only placeholders are replaced. */
  lemma {:induction false} ReplaceKeepsArrays(params: seq<Value>, vars: map<string, Value>)
    ensures ArraysKept(params, ReplaceParamVars(params, vars).out)
    decreases params
  {
    var r := ReplaceParamVars(params, vars).out;
    ReplaceElementwise(params, params, vars);
    forall i | 0 <= i < |params| && params[i].List?
      ensures r[i].List? && ArraysKept(params[i].items, r[i].items)
    {
      ReplaceKeepsArrays(params[i].items, vars);
    }
  }

  /** The callbacks fire once per unbound placeholder, in depth-first
      left-to-right order, each with an array that holds that placeholder. */
  lemma {:induction false} MissesInOrder(items: seq<Value>, params: seq<Value>, vars: map<string, Value>)
    ensures MissNames(ReplaceEach(items, params, vars).misses) == Unbound(VarNames(items), vars)
    decreases items, 0
  {
    if items != [] {
      MissesInOrder(items[1..], params, vars);
      ValueMissesInOrder(items[0], params, vars);
      var h := ReplaceValue(items[0], params, vars);
      var t := ReplaceEach(items[1..], params, vars);
      MissNamesAppend(h.misses, t.misses);
      UnboundAppend(ValueVarNames(items[0]), VarNames(items[1..]), vars);
    }
  }

  lemma {:induction false} ValueMissesInOrder(v: Value, params: seq<Value>, vars: map<string, Value>)
    ensures MissNames(ReplaceValue(v, params, vars).misses) == Unbound(ValueVarNames(v), vars)
    decreases v, 1
  {
    match v
    case List(xs) => MissesInOrder(xs, xs, vars);
    case Var(n) =>
    case _ =>
  }

  /** Each callback is given an array that holds the unbound placeholder. */
  lemma {:induction false} MissesEnclosing(items: seq<Value>, params: seq<Value>, vars: map<string, Value>)
    requires forall i :: 0 <= i < |items| ==> items[i] in params
    ensures forall m :: m in ReplaceEach(items, params, vars).misses ==>
              m.name !in vars && Var(m.name) in m.enclosing
    decreases items, 0
  {
    if items != [] {
      MissesEnclosing(items[1..], params, vars);
      var h := ReplaceValue(items[0], params, vars);
      assert items[0] in params;
      match items[0] {
        case List(xs) =>
          MissesEnclosing(xs, xs, vars);
          assert h.misses == ReplaceParamVars(xs, vars).misses;
          assert ReplaceParamVars(xs, vars) == ReplaceEach(xs, xs, vars);
        case Var(n) =>
        case _ =>
      }
      assert forall m :: m in h.misses ==> m.name !in vars && Var(m.name) in m.enclosing;
    }
  }

  /** A list without placeholders comes back unchanged, and no callback fires. */
  lemma {:induction false} NoVarsUnchanged(params: seq<Value>, vars: map<string, Value>)
    requires VarNames(params) == []
    ensures ReplaceParamVars(params, vars) == Subst(params, [])
    decreases params, 1
  {
    NoVarsUnchangedEach(params, params, vars);
  }

  lemma {:induction false} NoVarsUnchangedEach(items: seq<Value>, params: seq<Value>, vars: map<string, Value>)
    requires VarNames(items) == []
    ensures ReplaceEach(items, params, vars) == Subst(items, [])
    decreases items, 0
  {
    if items != [] {
      NoVarsUnchangedEach(items[1..], params, vars);
      match items[0] {
        case List(xs) => NoVarsUnchanged(xs, vars);
        case _ =>
      }
      assert [items[0]] + items[1..] == items;
    }
  }

  /** When no binding is itself a placeholder or holds one, the result has
      no placeholder left. */
  lemma {:induction false} FullyResolved(items: seq<Value>, params: seq<Value>, vars: map<string, Value>)
    requires forall n :: n in vars ==> ValueVarNames(vars[n]) == []
    ensures VarNames(ReplaceEach(items, params, vars).out) == []
    decreases items
  {
    if items != [] {
      FullyResolved(items[1..], params, vars);
      var t := ReplaceEach(items[1..], params, vars).out;
      var h := ReplaceValue(items[0], params, vars).value;
      match items[0] {
        case List(xs) =>
          FullyResolved(xs, xs, vars);
          assert h == List(ReplaceParamVars(xs, vars).out);
          assert ReplaceParamVars(xs, vars) == ReplaceEach(xs, xs, vars);
        case _ =>
      }
      assert ValueVarNames(h) == [];
      assert ([h] + t)[0] == h && ([h] + t)[1..] == t;
    }
  }

  /** Substitution is idempotent once the bindings hold no placeholder: a
      second pass changes nothing and reports nothing. */
  lemma Idempotent(params: seq<Value>, vars: map<string, Value>)
    requires forall n :: n in vars ==> ValueVarNames(vars[n]) == []
    ensures var once := ReplaceParamVars(params, vars).out;
      ReplaceParamVars(once, vars) == Subst(once, [])
  {
    FullyResolved(params, params, vars);
    NoVarsUnchanged(ReplaceParamVars(params, vars).out, vars);
  }
}
