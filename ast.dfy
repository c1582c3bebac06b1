/** The parse tree the external grammar hands to the compiler, and the
    shape conditions the compiler relies on. */
module QueryAst {
  import opened QueryValues

  /** The node kinds whose payload the canonicaliser returns as it is. */
  datatype LiteralKind = CompOp | IntLit | FloatLit | BoolLit | StrLit | NameLit

  /** One parse-tree node. `Unknown` is a node of a kind the canonicaliser
      has no case for, with a scalar payload that passes through unchanged.
      Its `tag` is meant never to name a handled kind: the model does not
      read it, so `Unknown("compExpr", v)` still passes `v` through. The
      `boolOp` nodes that sit in a conjunction's `op` slot, and numeric nodes
      of kind `num`, are such nodes. */
  datatype Node =
    | Literal(kind: LiteralKind, v: Scalar)
    | VarNode(name: string)
    | ArrayNode(elems: seq<Node>)
    | CompExpr(left: Node, op: Node, right: Node)
    | BoolExpr(left: Node, op: Node, right: Node)
    | Unknown(tag: string, v: Scalar)

  datatype SourceKind = Collection | ColGroup | Doc

  datatype FromItem = FromItem(kind: SourceKind, name: string)

  datatype Direction = Asc | Desc

  datatype OrderTerm = OrderTerm(field: string, dir: Direction)

  datatype Option<T> = None | Some(value: T)

  /** The query root: sources, predicate, ordering and an optional limit. */
  datatype Query = Query(from: seq<FromItem>, where: Node, order: seq<OrderTerm>, limit: Option<int>)

  /** The direction token as the parser spells it. */
  function DirectionToken(d: Direction): string {
    match d
    case Asc => "ASC"
    case Desc => "DESC"
  }

  /** The `boolOp` node the grammar puts between two conjuncts. */
  const AndOp: Node := Unknown("boolOp", Str("and"))

  /** The comparison operators of the grammar. */
  const CompOps: set<string> :=
    {"==", "!=", "<", "<=", ">", ">=", "array-contains", "array-contains-any", "in", "not-in"}

  /** Whether the payload `v` of an operator node is the string "and".
      Nodes without a scalar payload never match. */
  predicate OpIsAnd(op: Node) {
    match op
    case Literal(_, v) => v == Str("and")
    case VarNode(n) => n == "and"
    case Unknown(_, v) => v == Str("and")
    case _ => false
  }

  /** Whether a node has `left`, `op` and `right` children. */
  predicate HasOp(n: Node) {
    n.CompExpr? || n.BoolExpr?
  }

  /** The canonicaliser can reduce `n` without reading `op` of a node that
      has none: every node reached as the right-hand side of a conjunction
      link has an operator. */
  predicate WellFormed(n: Node)
    decreases n, 0
  {
    match n
    case BoolExpr(l, _, r) => WellFormed(l) && ChainOk(r)
    case CompExpr(l, op, r) => WellFormed(l) && WellFormed(op) && WellFormed(r)
    case ArrayNode(xs) => forall i :: 0 <= i < |xs| ==> WellFormed(xs[i])
    case _ => true
  }

  /** The condition for a node reached on the right spine of a conjunction. */
  predicate ChainOk(n: Node)
    decreases n, 1
  {
    HasOp(n) &&
    if OpIsAnd(n.op) then WellFormed(n.left) && ChainOk(n.right) else WellFormed(n)
  }

  /** A query the compiler accepts: its predicate is a comparison or a
      conjunction, and is well formed. */
  predicate Compilable(q: Query) {
    HasOp(q.where) && WellFormed(q.where)
  }

  /** A comparison as the grammar produces it. */
  predicate Comparison(n: Node) {
    n.CompExpr? && n.op.Literal? && n.op.kind == CompOp && n.op.v.Str? && n.op.v.s in CompOps &&
    WellFormed(n.left) && WellFormed(n.right)
  }

  /** A right-leaning chain `c1 and (c2 and (... and cN))` of comparisons,
      or a single comparison. */
  predicate Conjunction(n: Node) {
    Comparison(n) || (n.BoolExpr? && OpIsAnd(n.op) && Comparison(n.left) && Conjunction(n.right))
  }

  /** A query as the grammar produces it. */
  predicate Grammatical(q: Query) {
    Conjunction(q.where)
  }

  /** The comparisons of a conjunction, in source order. */
  function Conjuncts(n: Node): (cs: seq<Node>)
    requires Conjunction(n)
    ensures |cs| >= 1 && cs[0] == (if n.BoolExpr? then n.left else n)
    ensures forall i :: 0 <= i < |cs| ==> Comparison(cs[i])
    ensures n.BoolExpr? <==> |cs| > 1
  {
    if n.BoolExpr? then [n.left] + Conjuncts(n.right) else [n]
  }

  /** A grammatical predicate satisfies the compiler's condition. */
  lemma {:induction false} ConjunctionChainOk(n: Node)
    requires Conjunction(n)
    ensures ChainOk(n) && WellFormed(n) && HasOp(n)
  {
    if n.BoolExpr? {
      ConjunctionChainOk(n.right);
    } else {
      assert !OpIsAnd(n.op) by { assert "and" !in CompOps; }
    }
  }

  lemma GrammaticalIsCompilable(q: Query)
    requires Grammatical(q)
    ensures Compilable(q)
  {
    ConjunctionChainOk(q.where);
  }
}
