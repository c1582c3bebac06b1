/** The plan compiler: the canonical item list becomes a flat list of
    `[method, argumentList]` entries (src/firestoreQueryUtil.js, astToPlan). */
module Plan {
  import opened QueryValues
  import opened QueryAst
  import opened SExpr

  /** An item `[head, second]` that astToPlan can take apart: when the head
      is "and" or "orderBy" it iterates over `second`, which must then be an
      array. */
  predicate PlannableItem(e: Value) {
    e.List? && |e.items| == 2 &&
    ((e.items[0] == S("and") || e.items[0] == S("orderBy")) ==> e.items[1].List?)
  }

  predicate AllPlannable(items: seq<Value>) {
    forall i :: 0 <= i < |items| ==> PlannableItem(items[i])
  }

  /** One `["orderBy", pair]` entry per order pair, in order. */
  function OrderByEntries(pairs: seq<Value>): (r: seq<Value>)
    ensures |r| == |pairs|
  {
    seq(|pairs|, k requires 0 <= k < |pairs| => List([S("orderBy"), pairs[k]]))
  }

  /** What one canonical item contributes to the plan. */
  function ItemEntries(e: Value): seq<Value>
    requires PlannableItem(e)
  {
    var head, second := e.items[0], e.items[1];
    if head == S("and") then second.items
    else if head == S("where") then [e]
    else if head == S("orderBy") then OrderByEntries(second.items)
    else if !second.List? then [List([head, List([second])])]
    else [e]
  }

  /** The plan of a list of canonical items: their entries, concatenated in order. */
  function PlanOfItems(items: seq<Value>): seq<Value>
    requires AllPlannable(items)
  {
    if items == [] then [] else ItemEntries(items[0]) + PlanOfItems(items[1..])
  }

  /** Every item of the canonical form of a compilable query can be planned. */
  lemma SExprPlannable(q: Query)
    requires Compilable(q)
    ensures AllPlannable(SExprOf(q))
  {
    var f, w, o, l := FromToSExpr(q.from), [WhereToSExpr(q.where)], OrderItem(q.order), LimitItem(q.limit);
    assert AllPlannable(f) by {
      forall i | 0 <= i < |f| ensures PlannableItem(f[i]) {
        SourcePlannable(q.from[i]);
      }
    }
    assert AllPlannable(w) by {
      assert w[0].items[1].List?;
    }
    AllPlannableAppend(f, w);
    AllPlannableAppend(f + w, o);
    AllPlannableAppend(f + w + o, l);
  }

  lemma SourcePlannable(item: FromItem)
    ensures PlannableItem(Pair(SourceTag(item.kind), S(item.name)))
  {
    var t := SourceTag(item.kind);
    assert t != "and" && t != "orderBy" by {
      assert t[0] != 'a' && t[0] != 'o';
    }
  }

  /** The plan of a query. */
  function PlanOf(q: Query): seq<Value>
    requires Compilable(q)
  {
    SExprPlannable(q);
    PlanOfItems(SExprOf(q))
  }

  /** astToPlan: walks the canonical items and appends their entries. */
  method AstToPlan(q: Query) returns (plan: seq<Value>)
    requires Compilable(q)
    ensures plan == PlanOf(q)
  {
    var items := AstToSExpr(q);
    SExprPlannable(q);
    plan := [];
    var i := 0;
    while i < |items|
      invariant 0 <= i <= |items|
      invariant plan == PlanOfItems(items[..i])
    {
      plan := PushEntries(plan, items[i]);
      PlanOfItemsSnoc(items, i);
      i := i + 1;
    }
    assert items[..i] == items;
  }

  /** The body of astToPlan's loop: appends the entries of one item. */
  method PushEntries(plan: seq<Value>, expr: Value) returns (r: seq<Value>)
    requires PlannableItem(expr)
    ensures r == plan + ItemEntries(expr)
  {
    var head, second := expr.items[0], expr.items[1];
    r := plan;
    if head == S("and") {
      var j := 0;
      while j < |second.items|
        invariant 0 <= j <= |second.items|
        invariant r == plan + second.items[..j]
      {
        r := r + [second.items[j]];
        j := j + 1;
      }
      assert second.items[..j] == second.items;
    } else if head == S("where") {
      r := r + [expr];
    } else if head == S("orderBy") {
      var j := 0;
      while j < |second.items|
        invariant 0 <= j <= |second.items|
        invariant r == plan + OrderByEntries(second.items[..j])
      {
        assert OrderByEntries(second.items[..j + 1]) ==
               OrderByEntries(second.items[..j]) + [List([S("orderBy"), second.items[j]])];
        r := r + [List([S("orderBy"), second.items[j]])];
        j := j + 1;
      }
      assert second.items[..j] == second.items;
    } else if !second.List? {
      r := r + [List([head, List([second])])];
    } else {
      r := r + [expr];
    }
  }

  lemma AllPlannableAppend(a: seq<Value>, b: seq<Value>)
    requires AllPlannable(a) && AllPlannable(b)
    ensures AllPlannable(a + b)
  {
    forall i | 0 <= i < |a + b| ensures PlannableItem((a + b)[i]) {
      if i < |a| { assert (a + b)[i] == a[i]; } else { assert (a + b)[i] == b[i - |a|]; }
    }
  }

  /** The plan of a concatenation is the concatenation of the plans. */
  lemma {:induction false} PlanOfItemsAppend(a: seq<Value>, b: seq<Value>)
    requires AllPlannable(a) && AllPlannable(b)
    ensures AllPlannable(a + b)
    ensures PlanOfItems(a + b) == PlanOfItems(a) + PlanOfItems(b)
    decreases |a|
  {
    AllPlannableAppend(a, b);
    if a == [] {
      assert a + b == b;
    } else {
      AllPlannableSuffix(a);
      PlanOfItemsAppend(a[1..], b);
      assert (a + b)[1..] == a[1..] + b;
    }
  }

  /** Planning one more item appends its entries. */
  lemma PlanOfItemsSnoc(items: seq<Value>, i: nat)
    requires AllPlannable(items) && i < |items|
    ensures AllPlannable(items[..i]) && AllPlannable(items[..i + 1])
    ensures PlanOfItems(items[..i + 1]) == PlanOfItems(items[..i]) + ItemEntries(items[i])
  {
    var x := items[i];
    assert items[..i + 1] == items[..i] + [x];
    assert PlanOfItems([x]) == ItemEntries(x) by { assert [x][1..] == []; }
    PlanOfItemsAppend(items[..i], [x]);
  }

  lemma AllPlannableSuffix(a: seq<Value>)
    requires AllPlannable(a) && a != []
    ensures AllPlannable(a[1..])
  {
    forall i | 0 <= i < |a| - 1 ensures PlannableItem(a[1..][i]) { assert a[1..][i] == a[i + 1]; }
  }

  /** The reference plan of each part of a grammatical query. */
  function FromCalls(from: seq<FromItem>): (r: seq<Value>)
    ensures |r| == |from|
  {
    seq(|from|, i requires 0 <= i < |from| => Call(SourceTag(from[i].kind), [S(from[i].name)]))
  }

  function OrderCalls(order: seq<OrderTerm>): (r: seq<Value>)
    ensures |r| == |order|
  {
    seq(|order|, i requires 0 <= i < |order| =>
      Call("orderBy", [S(order[i].field), S(DirectionName(order[i].dir))]))
  }

  function LimitCalls(limit: Option<int>): (r: seq<Value>)
    ensures |r| == if limit.Some? then 1 else 0
  {
    if limit.Some? then [Call("limit", [Prim(Num(limit.value as real))])] else []
  }

  /** A from clause becomes one `[tag, [name]]` entry per source, in order:
      the scalar name is wrapped in a one-element argument list. */
  lemma {:induction false} FromPlan(from: seq<FromItem>)
    ensures AllPlannable(FromToSExpr(from))
    ensures PlanOfItems(FromToSExpr(from)) == FromCalls(from)
    decreases |from|
  {
    if from != [] {
      FromPlan(from[1..]);
      assert FromCalls(from) == [Call(SourceTag(from[0].kind), [S(from[0].name)])] + FromCalls(from[1..]);
    }
  }

  /** The orderBy item becomes one `["orderBy", [field, direction]]` entry per term. */
  lemma OrderPlan(order: seq<OrderTerm>)
    ensures AllPlannable(OrderItem(order))
    ensures PlanOfItems(OrderItem(order)) == OrderCalls(order)
  {
    if |order| > 0 {
      var e := Pair("orderBy", List(OrderToSExpr(order)));
      assert OrderItem(order)[1..] == [];
      assert PlanOfItems(OrderItem(order)) == ItemEntries(e);
    }
  }

  /** A bare limit becomes `["limit", [limit]]`. */
  lemma LimitPlan(limit: Option<int>)
    ensures AllPlannable(LimitItem(limit))
    ensures PlanOfItems(LimitItem(limit)) == LimitCalls(limit)
  {
    if limit.Some? {
      assert LimitItem(limit)[1..] == [];
    }
  }

  /** The predicate item becomes one `where` entry per conjunct, in order. */
  lemma WherePlan(where: Node)
    requires Conjunction(where)
    ensures WellFormed(where)
    ensures AllPlannable([WhereToSExpr(where)])
    ensures PlanOfItems([WhereToSExpr(where)]) == ComparisonItems(Conjuncts(where))
  {
    WhereCanonical(where);
    assert [WhereToSExpr(where)][1..] == [];
    if where.CompExpr? {
      assert ComparisonItems(Conjuncts(where)) == [ComparisonItem(where)];
    }
  }

  /** Plan compilation of a grammatical query: the from entries, then one
      where entry per conjunct, then one orderBy entry per order term, then
      the limit entry if there is a limit. */
  lemma PlanLayout(q: Query)
    requires Grammatical(q)
    ensures Compilable(q)
    ensures PlanOf(q) ==
      FromCalls(q.from) + ComparisonItems(Conjuncts(q.where)) + OrderCalls(q.order) + LimitCalls(q.limit)
  {
    GrammaticalIsCompilable(q);
    var f, w, o, l := FromToSExpr(q.from), [WhereToSExpr(q.where)], OrderItem(q.order), LimitItem(q.limit);
    FromPlan(q.from);
    WherePlan(q.where);
    OrderPlan(q.order);
    LimitPlan(q.limit);
    PlanOfItemsAppend(f, w);
    PlanOfItemsAppend(f + w, o);
    PlanOfItemsAppend(f + w + o, l);
  }

  /** The method names a plan can contain. */
  const BuilderMethods: set<string> := {"collection", "collectionGroup", "doc", "where", "orderBy", "limit"}

  /** Every entry is a call of one of the builder methods. */
  predicate BuilderCalls(plan: seq<Value>) {
    forall i :: 0 <= i < |plan| ==> IsCall(plan[i]) && MethodOf(plan[i]) in BuilderMethods
  }

  lemma BuilderCallsAppend(a: seq<Value>, b: seq<Value>)
    requires BuilderCalls(a) && BuilderCalls(b)
    ensures BuilderCalls(a + b)
  {
    forall i | 0 <= i < |a + b| ensures IsCall((a + b)[i]) && MethodOf((a + b)[i]) in BuilderMethods {
      if i < |a| { assert (a + b)[i] == a[i]; } else { assert (a + b)[i] == b[i - |a|]; }
    }
  }

  /** The length of the plan of a grammatical query is
      |from| + N + k + [limit], and every entry is a call of one of the six
      builder methods. */
  lemma PlanLength(q: Query)
    requires Grammatical(q)
    ensures Compilable(q)
    ensures |PlanOf(q)| ==
      |q.from| + |Conjuncts(q.where)| + |q.order| + (if q.limit.Some? then 1 else 0)
    ensures AllCalls(PlanOf(q)) && BuilderCalls(PlanOf(q))
  {
    PlanLayout(q);
    var f, w, o, l := FromCalls(q.from), ComparisonItems(Conjuncts(q.where)), OrderCalls(q.order), LimitCalls(q.limit);
    assert BuilderCalls(f) by {
      forall i | 0 <= i < |f| ensures IsCall(f[i]) && MethodOf(f[i]) in BuilderMethods {
        assert MethodOf(f[i]) == SourceTag(q.from[i].kind);
      }
    }
    assert BuilderCalls(w) by {
      forall i | 0 <= i < |w| ensures IsCall(w[i]) && MethodOf(w[i]) in BuilderMethods {
        assert MethodOf(w[i]) == "where";
      }
    }
    assert BuilderCalls(o) by {
      forall i | 0 <= i < |o| ensures IsCall(o[i]) && MethodOf(o[i]) in BuilderMethods {
        assert MethodOf(o[i]) == "orderBy";
      }
    }
    assert BuilderCalls(l);
    BuilderCallsAppend(f, w);
    BuilderCallsAppend(f + w, o);
    BuilderCallsAppend(f + w + o, l);
  }
}
