/** The S-expression canonicaliser: a query root becomes a list of
    `[tag, payload]` items (src/firestoreQueryUtil.js, astToSExpr and the
    functions it calls). */
module SExpr {
  import opened QueryValues
  import opened QueryAst

  /** FROM_TYPE_TO_NAME: the builder method that selects a source kind. */
  function SourceTag(k: SourceKind): string {
    match k
    case Collection => "collection"
    case ColGroup => "collectionGroup"
    case Doc => "doc"
  }

  /** Each from item becomes `[tag, name]`, in order. */
  function FromToSExpr(items: seq<FromItem>): (r: seq<Value>)
    ensures |r| == |items|
    ensures forall i :: 0 <= i < |items| ==> r[i] == Pair(SourceTag(items[i].kind), S(items[i].name))
  {
    if items == [] then [] else [Pair(SourceTag(items[0].kind), S(items[0].name))] + FromToSExpr(items[1..])
  }

  /** Lower-casing of one character, as toLowerCase does for ASCII letters. */
  function LowerChar(c: char): char {
    if 'A' <= c <= 'Z' then (c as int - 'A' as int + 'a' as int) as char else c
  }

  function LowerAscii(s: string): (r: string)
    ensures |r| == |s|
    ensures forall i :: 0 <= i < |s| ==> r[i] == LowerChar(s[i])
  {
    if s == [] then [] else [LowerChar(s[0])] + LowerAscii(s[1..])
  }

  /** The direction tokens lower-case to "asc" and "desc". */
  lemma LoweredDirections()
    ensures LowerAscii(DirectionToken(Asc)) == "asc"
    ensures LowerAscii(DirectionToken(Desc)) == "desc"
  {
    var a := LowerAscii("ASC");
    assert a[0] == 'a' && a[1] == 's' && a[2] == 'c';
    var d := LowerAscii("DESC");
    assert d[0] == 'd' && d[1] == 'e' && d[2] == 's' && d[3] == 'c';
  }

  /** The lower-cased direction of a term. */
  function DirectionName(d: Direction): string {
    LowerAscii(DirectionToken(d))
  }

  /** The `orderBy` payload: one `[field, direction]` pair per term, in order. */
  function OrderToSExpr(order: seq<OrderTerm>): (r: seq<Value>)
    ensures |r| == |order|
    ensures forall i :: 0 <= i < |order| ==>
              r[i] == List([S(order[i].field), S(DirectionName(order[i].dir))])
  {
    if order == [] then []
    else [List([S(order[0].field), S(DirectionName(order[0].dir))])] + OrderToSExpr(order[1..])
  }

  /** whereToSExpr: the canonical value of a predicate node. */
  function WhereToSExpr(n: Node): Value
    requires WellFormed(n)
    decreases n, 0
  {
    match n
    case BoolExpr(l, _, r) => Pair("and", List(FlattenAnds(r, [WhereToSExpr(l)])))
    case CompExpr(l, op, r) => Pair("where", List([WhereToSExpr(l), WhereToSExpr(op), WhereToSExpr(r)]))
    case Literal(_, v) => Prim(v)
    case VarNode(name) => Var(name)
    case ArrayNode(xs) => List(seq(|xs|, i requires 0 <= i < |xs| => WhereToSExpr(xs[i])))
    case Unknown(_, v) => Prim(v)
  }

  /** flattenAnds: walks the right spine of a conjunction while the operator
      is "and", appending each left operand to `accum`, and finally the
      node that ends the spine. The array the source pushes into is the
      threaded `accum`. */
  function FlattenAnds(n: Node, accum: seq<Value>): seq<Value>
    requires ChainOk(n)
    decreases n, 1
  {
    if OpIsAnd(n.op) then FlattenAnds(n.right, accum + [WhereToSExpr(n.left)])
    else accum + [WhereToSExpr(n)]
  }

  /** The accumulator is only ever extended at the end. */
  lemma {:induction false} FlattenAndsAccum(n: Node, accum: seq<Value>)
    requires ChainOk(n)
    ensures FlattenAnds(n, accum) == accum + FlattenAnds(n, [])
    decreases n
  {
    if OpIsAnd(n.op) {
      var w := WhereToSExpr(n.left);
      assert [] + [w] == [w];
      FlattenAndsAccum(n.right, accum + [w]);
      FlattenAndsAccum(n.right, [w]);
      assert accum + [w] + FlattenAnds(n.right, []) == accum + ([w] + FlattenAnds(n.right, []));
    }
  }

  /** The shape of each node kind's canonical value: a conjunction is an
      `and` item with at least two children, a comparison a `where` item
      with three, a placeholder a `Var` (never its name as a string), an
      array an array of the same length, and any other node its payload. */
  lemma NodeCanonical(n: Node)
    requires WellFormed(n)
    ensures var r := WhereToSExpr(n);
      && (n.BoolExpr? ==> IsCall(r) && MethodOf(r) == "and" && |ArgsOf(r)| >= 2)
      && (n.CompExpr? ==> IsCall(r) && MethodOf(r) == "where" && |ArgsOf(r)| == 3)
      && (n.VarNode? ==> r == Var(n.name))
      && (n.ArrayNode? ==>
            r.List? && |r.items| == |n.elems| &&
            forall i :: 0 <= i < |n.elems| ==> r.items[i] == WhereToSExpr(n.elems[i]))
      && (n.Literal? || n.Unknown? ==> r == Prim(n.v))
  {
    if n.BoolExpr? {
      FlattenAndsGrows(n.right, [WhereToSExpr(n.left)]);
    }
  }

  /** Flattening always adds at least one item to the accumulator. */
  lemma {:induction false} FlattenAndsGrows(n: Node, accum: seq<Value>)
    requires ChainOk(n)
    ensures |FlattenAnds(n, accum)| > |accum|
    decreases n
  {
    if OpIsAnd(n.op) {
      FlattenAndsGrows(n.right, accum + [WhereToSExpr(n.left)]);
    }
  }

  /** The where item of a single comparison. */
  function ComparisonItem(c: Node): Value
    requires Comparison(c)
  {
    Pair("where", List([WhereToSExpr(c.left), Prim(c.op.v), WhereToSExpr(c.right)]))
  }

  /** The canonical values of a list of comparisons, in order. */
  function ComparisonItems(cs: seq<Node>): (r: seq<Value>)
    requires forall i :: 0 <= i < |cs| ==> Comparison(cs[i])
    ensures |r| == |cs|
  {
    seq(|cs|, i requires 0 <= i < |cs| => ComparisonItem(cs[i]))
  }

  /** A comparison reduces to `["where", [left, op, right]]`. */
  lemma ComparisonCanonical(c: Node)
    requires Comparison(c)
    ensures WellFormed(c) && WhereToSExpr(c) == ComparisonItem(c)
  {
  }

  /** Flattening a conjunction's right spine yields the canonical value of
      every remaining comparison, in source order. */
  lemma {:induction false} FlattenConjunction(n: Node)
    requires Conjunction(n)
    ensures ChainOk(n) && FlattenAnds(n, []) == ComparisonItems(Conjuncts(n))
  {
    ConjunctionChainOk(n);
    if n.BoolExpr? {
      FlattenConjunction(n.right);
      assert [] + [WhereToSExpr(n.left)] == [WhereToSExpr(n.left)];
      FlattenAndsAccum(n.right, [WhereToSExpr(n.left)]);
      ComparisonCanonical(n.left);
      assert ComparisonItems(Conjuncts(n)) == [ComparisonItem(n.left)] + ComparisonItems(Conjuncts(n.right));
    } else {
      ComparisonCanonical(n);
      assert !OpIsAnd(n.op) by { assert "and" !in CompOps; }
      assert ComparisonItems(Conjuncts(n)) == [ComparisonItem(n)];
    }
  }

  /** And-flattening: a chain of N comparisons becomes one flat
      `["and", [s(c1), ..., s(cN)]]` item whose N children are all where
      items, none of them an "and"; a lone comparison is a where item. */
  lemma WhereCanonical(n: Node)
    requires Conjunction(n)
    ensures WellFormed(n)
    ensures n.CompExpr? ==> WhereToSExpr(n) == ComparisonItem(n)
    ensures n.BoolExpr? ==> WhereToSExpr(n) == Pair("and", List(ComparisonItems(Conjuncts(n))))
    ensures n.BoolExpr? ==> |ComparisonItems(Conjuncts(n))| == |Conjuncts(n)| > 1
  {
    ConjunctionChainOk(n);
    if n.BoolExpr? {
      FlattenConjunction(n);
      assert FlattenAnds(n, []) == FlattenAnds(n.right, [WhereToSExpr(n.left)]) by {
        assert [] + [WhereToSExpr(n.left)] == [WhereToSExpr(n.left)];
      }
    } else {
      ComparisonCanonical(n);
    }
  }

  /** The canonical form of a query root. */
  function SExprOf(q: Query): seq<Value>
    requires WellFormed(q.where)
  {
    FromToSExpr(q.from) + [WhereToSExpr(q.where)] + OrderItem(q.order) + LimitItem(q.limit)
  }

  /** The `orderBy` item, present only when there are order terms. */
  function OrderItem(order: seq<OrderTerm>): seq<Value> {
    if |order| > 0 then [Pair("orderBy", List(OrderToSExpr(order)))] else []
  }

  /** The `limit` item, present only when there is a limit. */
  function LimitItem(limit: Option<int>): seq<Value> {
    if limit.Some? then [Pair("limit", Prim(Num(limit.value as real)))] else []
  }

  /** astToSExpr: builds the root list by successive appends. */
  method AstToSExpr(q: Query) returns (root: seq<Value>)
    requires WellFormed(q.where)
    ensures root == SExprOf(q)
  {
    root := FromToSExpr(q.from);
    root := root + [WhereToSExpr(q.where)];
    if |q.order| > 0 {
      root := root + [Pair("orderBy", List(OrderToSExpr(q.order)))];
    }
    if q.limit.Some? {
      root := root + [Pair("limit", Prim(Num(q.limit.value as real)))];
    }
  }

  /** The layout of the canonical form: the from items in order, exactly one
      predicate item, then an orderBy item iff there are order terms, then a
      limit item iff there is a limit. */
  lemma SExprLayout(q: Query)
    requires WellFormed(q.where)
    ensures var r := SExprOf(q);
      && |r| == |q.from| + 1 + (if |q.order| > 0 then 1 else 0) + (if q.limit.Some? then 1 else 0)
      && (forall i :: 0 <= i < |q.from| ==> r[i] == Pair(SourceTag(q.from[i].kind), S(q.from[i].name)))
      && r[|q.from|] == WhereToSExpr(q.where)
      && (|q.order| > 0 ==> r[|q.from| + 1] == Pair("orderBy", List(OrderToSExpr(q.order))))
      && (q.limit.Some? ==> r[|r| - 1] == Pair("limit", Prim(Num(q.limit.value as real))))
  {
  }
}
