/** Worked queries: concrete parse trees as the grammar builds them, and the
    plans and builder calls they compile to. */
module Scenarios {
  import opened QueryValues
  import opened QueryAst
  import opened SExpr
  import opened Plan
  import opened Substitution
  import opened Applier

  /** Parse-tree constructors, one per node kind the grammar emits. */
  function Name(s: string): Node { Literal(NameLit, Str(s)) }
  function NumNode(x: real): Node { Unknown("num", Num(x)) }
  function BoolNode(b: bool): Node { Literal(BoolLit, Bool(b)) }
  function StrNode(s: string): Node { Literal(StrLit, Str(s)) }
  function Cmp(l: Node, op: string, r: Node): Node { CompExpr(l, Literal(CompOp, Str(op)), r) }
  function And(l: Node, r: Node): Node { BoolExpr(l, AndOp, r) }

  /** A query in bare predicate mode: no source, no order, no limit. */
  function Bare(where: Node): Query { Query([], where, [], None) }

  /** The plan entry `["where", [field, op, value]]`. */
  function WhereCall(field: string, op: string, value: Value): Value {
    Call("where", [S(field), S(op), value])
  }

  /** A comparison of a named field compiles to `["where", [field, op, value]]`. */
  lemma WhereEntry(field: string, op: string, r: Node)
    requires op in CompOps && WellFormed(r)
    ensures Comparison(Cmp(Name(field), op, r))
    ensures ComparisonItem(Cmp(Name(field), op, r)) == WhereCall(field, op, WhereToSExpr(r))
  {
  }

  /** A lone comparison in bare mode plans to its where entry. */
  lemma SinglePlan(c: Node)
    requires Comparison(c)
    ensures Conjunction(c) && Compilable(Bare(c))
    ensures PlanOf(Bare(c)) == [ComparisonItem(c)]
  {
    PlanLayout(Bare(c));
    assert Conjuncts(c) == [c];
    assert FromCalls([]) == [] && OrderCalls([]) == [];
  }

  /** Putting a comparison in front of a conjunction puts its where entry
      in front of the plan. */
  lemma ChainPlan(c: Node, rest: Node)
    requires Comparison(c) && Conjunction(rest)
    ensures Conjunction(And(c, rest)) && Compilable(Bare(And(c, rest))) && Compilable(Bare(rest))
    ensures PlanOf(Bare(And(c, rest))) == [ComparisonItem(c)] + PlanOf(Bare(rest))
  {
    var w := And(c, rest);
    assert Conjunction(w);
    PlanLayout(Bare(w));
    PlanLayout(Bare(rest));
    assert FromCalls([]) == [] && OrderCalls([]) == [];
    assert Conjuncts(w) == [c] + Conjuncts(rest);
    assert ComparisonItems([c] + Conjuncts(rest)) == [ComparisonItem(c)] + ComparisonItems(Conjuncts(rest));
  }

  /** `a == 5` compiles to a single where entry. */
  lemma ScenarioSingle()
    ensures Compilable(Bare(Cmp(Name("a"), "==", NumNode(5.0))))
    ensures PlanOf(Bare(Cmp(Name("a"), "==", NumNode(5.0)))) == [WhereCall("a", "==", Prim(Num(5.0)))]
  {
    WhereEntry("a", "==", NumNode(5.0));
    SinglePlan(Cmp(Name("a"), "==", NumNode(5.0)));
  }

  /** `a <= 5 and b > 1.5 and c != "hello"` compiles to three where entries,
      in field order. */
  lemma ScenarioThreeConjuncts()
    ensures var w := And(Cmp(Name("a"), "<=", NumNode(5.0)),
                         And(Cmp(Name("b"), ">", NumNode(1.5)), Cmp(Name("c"), "!=", StrNode("hello"))));
      && Compilable(Bare(w))
      && PlanOf(Bare(w)) == [WhereCall("a", "<=", Prim(Num(5.0))),
                             WhereCall("b", ">", Prim(Num(1.5))),
                             WhereCall("c", "!=", S("hello"))]
  {
    var c1, c2, c3 := Cmp(Name("a"), "<=", NumNode(5.0)), Cmp(Name("b"), ">", NumNode(1.5)), Cmp(Name("c"), "!=", StrNode("hello"));
    WhereEntry("a", "<=", NumNode(5.0));
    WhereEntry("b", ">", NumNode(1.5));
    WhereEntry("c", "!=", StrNode("hello"));
    SinglePlan(c3);
    ChainPlan(c2, c3);
    ChainPlan(c1, And(c2, c3));
  }

  /** `a == false and b != true` compiles to two where entries. */
  lemma ScenarioTwoConjuncts()
    ensures var w := And(Cmp(Name("a"), "==", BoolNode(false)), Cmp(Name("b"), "!=", BoolNode(true)));
      && Compilable(Bare(w))
      && PlanOf(Bare(w)) == [WhereCall("a", "==", Prim(Bool(false))), WhereCall("b", "!=", Prim(Bool(true)))]
  {
    var c1, c2 := Cmp(Name("a"), "==", BoolNode(false)), Cmp(Name("b"), "!=", BoolNode(true));
    WhereEntry("a", "==", BoolNode(false));
    WhereEntry("b", "!=", BoolNode(true));
    SinglePlan(c2);
    ChainPlan(c1, c2);
  }

  /** `a == false and b != true and c < 42` compiles to three where entries. */
  lemma ScenarioThreeComparisons()
    ensures var w := And(Cmp(Name("a"), "==", BoolNode(false)),
                         And(Cmp(Name("b"), "!=", BoolNode(true)), Cmp(Name("c"), "<", NumNode(42.0))));
      && Compilable(Bare(w))
      && PlanOf(Bare(w)) == [WhereCall("a", "==", Prim(Bool(false))),
                             WhereCall("b", "!=", Prim(Bool(true))),
                             WhereCall("c", "<", Prim(Num(42.0)))]
  {
    var c1, c2, c3 := Cmp(Name("a"), "==", BoolNode(false)), Cmp(Name("b"), "!=", BoolNode(true)), Cmp(Name("c"), "<", NumNode(42.0));
    WhereEntry("a", "==", BoolNode(false));
    WhereEntry("b", "!=", BoolNode(true));
    WhereEntry("c", "<", NumNode(42.0));
    SinglePlan(c3);
    ChainPlan(c2, c3);
    ChainPlan(c1, And(c2, c3));
  }

  /** `a == false and b != true and c < 42 and d not-in [42, true, "hi"]`
      compiles to four where entries; the array operand is kept as an
      array. */
  lemma ScenarioFourConjuncts()
    ensures var w := And(Cmp(Name("a"), "==", BoolNode(false)),
                         And(Cmp(Name("b"), "!=", BoolNode(true)),
                             And(Cmp(Name("c"), "<", NumNode(42.0)),
                                 Cmp(Name("d"), "not-in", ArrayNode([NumNode(42.0), BoolNode(true), StrNode("hi")])))));
      && Compilable(Bare(w))
      && PlanOf(Bare(w)) == [WhereCall("a", "==", Prim(Bool(false))),
                             WhereCall("b", "!=", Prim(Bool(true))),
                             WhereCall("c", "<", Prim(Num(42.0))),
                             WhereCall("d", "not-in", List([Prim(Num(42.0)), Prim(Bool(true)), S("hi")]))]
  {
    var arr := ArrayNode([NumNode(42.0), BoolNode(true), StrNode("hi")]);
    assert WellFormed(arr);
    assert WhereToSExpr(arr) == List([Prim(Num(42.0)), Prim(Bool(true)), S("hi")]);
    var c1, c2, c3, c4 := Cmp(Name("a"), "==", BoolNode(false)), Cmp(Name("b"), "!=", BoolNode(true)),
                          Cmp(Name("c"), "<", NumNode(42.0)), Cmp(Name("d"), "not-in", arr);
    WhereEntry("a", "==", BoolNode(false));
    WhereEntry("b", "!=", BoolNode(true));
    WhereEntry("c", "<", NumNode(42.0));
    WhereEntry("d", "not-in", arr);
    SinglePlan(c4);
    ChainPlan(c3, c4);
    ChainPlan(c2, And(c3, c4));
    ChainPlan(c1, And(c2, And(c3, c4)));
  }

  /** `FROM "c1" WHERE a == 5 ORDER BY a, b ASC, d DESC LIMIT 20`: the
      source entry, the where entry, one orderBy entry per term with the
      direction lower-cased, and the wrapped limit. */
  lemma ScenarioFullQuery(q: Query)
    requires q.from == [FromItem(Collection, "c1")] && q.where == Cmp(Name("a"), "==", NumNode(5.0))
    requires q.order == [OrderTerm("a", Asc), OrderTerm("b", Asc), OrderTerm("d", Desc)] && q.limit == Some(20)
    ensures Compilable(q)
    ensures PlanOf(q) == [Call("collection", [S("c1")]),
                          WhereCall("a", "==", Prim(Num(5.0))),
                          Call("orderBy", [S("a"), S("asc")]),
                          Call("orderBy", [S("b"), S("asc")]),
                          Call("orderBy", [S("d"), S("desc")]),
                          Call("limit", [Prim(Num(20.0))])]
  {
    var c := q.where;
    WhereEntry("a", "==", NumNode(5.0));
    assert Conjuncts(c) == [c];
    PlanLayout(q);
    var f := [Call("collection", [S("c1")])];
    var w := [WhereCall("a", "==", Prim(Num(5.0)))];
    var o := [Call("orderBy", [S("a"), S("asc")]), Call("orderBy", [S("b"), S("asc")]), Call("orderBy", [S("d"), S("desc")])];
    var l := [Call("limit", [Prim(Num(20.0))])];
    assert FromCalls(q.from) == f;
    assert ComparisonItems([c]) == w;
    OrderTermsScenario();
    assert LimitCalls(q.limit) == l;
    assert PlanOf(q) == f + w + o + l;
  }

  /** `ORDER BY a, b ASC, d DESC`: one orderBy call per term, an omitted
      direction being ascending. */
  lemma OrderTermsScenario()
    ensures OrderCalls([OrderTerm("a", Asc), OrderTerm("b", Asc), OrderTerm("d", Desc)]) ==
      [Call("orderBy", [S("a"), S("asc")]), Call("orderBy", [S("b"), S("asc")]), Call("orderBy", [S("d"), S("desc")])]
  {
    LoweredDirections();
  }

  /** `a == ${x}` with `x` bound to 99, applied to a recording builder: the
      builder receives the single call `where("a", "==", 99)` and no
      placeholder is reported missing. */
  method ScenarioBoundVariable() returns (log: seq<Value>, misses: seq<Miss>)
    ensures log == [WhereCall("a", "==", Prim(Num(99.0)))] && misses == []
  {
    var c := Cmp(Name("a"), "==", VarNode("x"));
    var vars := map["x" := Prim(Num(99.0))];
    SinglePlan(c);
    var plan := [Call("where", [S("a"), S("=="), Var("x")])];
    assert PlanOf(Bare(c)) == plan;
    PlanLength(Bare(c));
    log, misses := ApplyToRecorder(Bare(c), vars);
    ResolveOne(plan, vars);
  }

  lemma ResolveOne(plan: seq<Value>, vars: map<string, Value>)
    requires plan == [Call("where", [S("a"), S("=="), Var("x")])] && vars == map["x" := Prim(Num(99.0))]
    ensures AllCalls(plan)
    ensures ResolvePlan(plan, vars) == Subst([WhereCall("a", "==", Prim(Num(99.0)))], [])
  {
    var args := [S("a"), S("=="), Var("x")];
    assert plan[0] == Call("where", args);
    assert ReplaceParamVars(args, vars) == Subst([S("a"), S("=="), Prim(Num(99.0))], []) by {
      assert args[1..][1..][1..] == [];
      assert args[1..][1..] == [Var("x")];
      assert args[1..] == [S("=="), Var("x")];
    }
    assert plan[1..] == [];
  }

  /** With placeholders v1, v2 and v3 and only v1 bound, the not-found
      callback fires for v2 and then v3, each with the enclosing list, and
      both become null. */
  lemma ScenarioMissingVariables()
    ensures var params := [Var("v1"), Var("v2"), Var("v3")];
      ReplaceParamVars(params, map["v1" := Prim(Num(1.0))]) ==
        Subst([Prim(Num(1.0)), Null, Null], [Miss("v2", params), Miss("v3", params)])
  {
    var params := [Var("v1"), Var("v2"), Var("v3")];
    assert params[1..] == [Var("v2"), Var("v3")];
    assert params[1..][1..] == [Var("v3")];
    assert params[1..][1..][1..] == [];
  }
}
