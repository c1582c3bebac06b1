# firestore-query-parser: the AST-to-plan compiler, in Dafny

This project models the compiler at the heart of `src/firestoreQueryUtil.js`.
The compiler takes a query that has already been parsed (sources, a predicate,
an ordering and an optional limit) and turns it into the list of calls to make
on a Firestore-style query builder. It does this in four stages:

1. **Canonicalisation** (`astToSExpr`, `fromToSExpr`, `whereToSExpr`,
   `flattenAnds`). The query root becomes a list of `[tag, payload]` items:
   - the sources first, with kinds renamed to `collection`, `collectionGroup`
     and `doc`;
   - then exactly one predicate item; a right-leaning chain of `and`s is
     flattened into a single `["and", [...]]`;
   - then an `orderBy` item with lower-cased directions, if there are order
     terms;
   - then a `limit` item, if there is a limit.
2. **Plan compilation** (`astToPlan`). Each item becomes `[method, args]`
   entries:
   - an `and` item gives one `where` entry per conjunct;
   - an `orderBy` item gives one entry per term;
   - a scalar payload is wrapped in a one-element argument list.
3. **Substitution** (`replaceParamVars`). `Var` placeholders (the `Var` class
   of `src/firestoreQueryUtil.js:5-9`) are replaced by their bindings at any
   depth. An unbound placeholder becomes `null`, and the not-found callback
   receives it together with the array it was found in.
4. **Application** (`applyToQuery`). The plan is replayed on a builder, each
   call being made on the value the previous call returned.

Module layout:

- `values.dfy` (`QueryValues`): the data that flows between stages. It is one
  `Value` datatype holding a primitive, a placeholder, null or an array. It
  also holds the shape of a plan entry, `[method, [args]]`.
- `ast.dfy` (`QueryAst`): the parse tree.
  - An `Unknown` node stands for a node of a kind the canonicaliser has no
    case for, carrying a scalar payload. The `boolOp` node in a conjunction's
    operator slot is one, and so is the tests' `num` number node.
  - It also holds the shape conditions the compiler relies on (`WellFormed`,
    `ChainOk`), and the shape the grammar produces (`Conjunction`,
    `Grammatical`).
- `sexpr.dfy` (`SExpr`): canonicalisation. `WhereToSExpr` and `FlattenAnds`
  are pure functions, with `flattenAnds`' pushed-into array threaded through
  as a value. `AstToSExpr` builds the root by successive appends and is
  proved equal to the function `SExprOf`.
- `plan.dfy` (`Plan`): the plan compiler as a loop (`AstToPlan`, `PushEntries`)
  proved equal to the function `PlanOf`. For a query the grammar produces,
  `PlanOf` is shown equal to an independent description: the source calls,
  one `where` per conjunct, one `orderBy` per term, then the limit.
- `substitution.dfy` (`Substitution`): substitution as a pure structural
  rewrite. It returns the rewritten list and the callbacks it fired, in order.
- `applier.dfy` (`Applier`): replay on an abstract builder. The builder is a
  state of any type `B` plus a function that makes one named call and returns
  the next state. A recording builder, whose state is the list of calls it
  received, shows that exactly the substituted plan is issued.
- `scenarios.dfy` (`Scenarios`): concrete queries and the plans they compile
  to, taken from `test/tests.js` and from worked examples of the compiler's
  behaviour.

A `boolExpr` node is canonicalised as an `and` item whatever its operator says
(`src/firestoreQueryUtil.js:40-41`). `NodeCanonical` states this for every
`BoolExpr`. `flattenAnds` walks the right spine while the operator's payload
is the string `"and"`, whatever kind of node the operator is, and the model
does the same (`OpIsAnd`).

`applyToQuery` substitutes every entry's arguments whether or not bindings
were supplied (`src/firestoreQueryUtil.js:104`), and so does
`Applier.ApplyToQuery`.

The tests pass a bare predicate to a global `astToPlan`
(`test/tests.js:2`, `test/tests.js:127-161`), not through the
`firestoreQueryParser` object exported at
`src/firestoreQueryUtil.js:128-133`. The code as written would crash on a
bare predicate: `astToSExpr` passes its `from` field, which is `undefined`,
to `fromToSExpr` (`src/firestoreQueryUtil.js:12`), whose `map` then throws
(`src/firestoreQueryUtil.js:34`). The scenarios instead read a bare predicate
as a query with no sources, no order terms and no limit. Read that way,
three of the four cases agree with the code. The first case
(`test/tests.js:128-131`) expects the single entry unwrapped, which the code
does not produce; `Scenarios.ScenarioSingle` states what the code produces
(a one-entry plan).

## Model

| member | source | states |
|---|---|---|
| QueryValues.ValueVarNames | src/firestoreQueryUtil.js:5-9 | the `Var` class is the `Value.Var` case, equal exactly when the names are; this function lists a value's placeholder names depth first, and `Substitution.MissesInOrder` ties the callbacks to it |
| SExpr.SourceTag | src/firestoreQueryUtil.js:28-32 | the FROM_TYPE_TO_NAME table; `SExpr.FromToSExpr` and `Plan.FromPlan` state what it gives |
| SExpr.WhereToSExpr | src/firestoreQueryUtil.js:37-62 | whereToSExpr, one case per node kind; `SExpr.NodeCanonical`, `SExpr.ComparisonCanonical` and `SExpr.WhereCanonical` state its results |
| SExpr.FlattenAnds | src/firestoreQueryUtil.js:64-72 | flattenAnds with its array threaded as a value; `SExpr.FlattenAndsAccum`, `SExpr.FlattenAndsGrows` and `SExpr.FlattenConjunction` state its results |
| SExpr.SExprOf | src/firestoreQueryUtil.js:11-26 | the canonical form astToSExpr returns; `SExpr.SExprLayout` states its layout and `SExpr.AstToSExpr` computes it |
| Plan.ItemEntries | src/firestoreQueryUtil.js:79-94 | what one canonical item contributes to the plan, branch by branch; `Plan.PushEntries` computes it and `Plan.FromPlan`, `Plan.WherePlan`, `Plan.OrderPlan`, `Plan.LimitPlan` state it per item kind |
| Plan.PlanOfItems | src/firestoreQueryUtil.js:78-95 | the entries of a list of items, concatenated in order; `Plan.PlanOfItemsAppend` states it distributes over concatenation |
| Plan.PlanOf | src/firestoreQueryUtil.js:74-98 | astToPlan's result; `Plan.AstToPlan` computes it and `Plan.PlanLayout`, `Plan.PlanLength` state it |
| Substitution.ReplaceParamVars | src/firestoreQueryUtil.js:110-126 | replaceParamVars; `Substitution.ReplaceElementwise`, `Substitution.ReplaceKeepsArrays`, `Substitution.MissesInOrder` and `Substitution.Idempotent` state its results |
| Substitution.ReplaceEach | src/firestoreQueryUtil.js:111-125 | the `map` over a list, each callback given the whole list being mapped |
| Substitution.ReplaceValue | src/firestoreQueryUtil.js:112-124 | the callback of `map`: arrays rewritten recursively, bound placeholders replaced, unbound ones nulled and reported, everything else kept |
| Applier.Replay | src/firestoreQueryUtil.js:101-107 | each call made on the value the previous call returned; `Applier.ApplyPlan` computes it and `Applier.ReplayRecords` states it for a recording builder |
| QueryValues.CallParts | src/firestoreQueryUtil.js:101 | a plan entry destructures into a method name and an argument array, and putting those back together gives the same entry |
| QueryAst.Conjuncts | test/tests.js:112-125 | the comparisons of a right-leaning `and` chain, in source order: at least one, the first being the leftmost, every one a comparison, and more than one exactly when the node is a conjunction |
| QueryAst.ConjunctionChainOk | src/firestoreQueryUtil.js:64-72 | every chain the grammar produces lets flattenAnds read `op` on every node it reaches; the chain's last node is not mistaken for an `and` link |
| QueryAst.GrammaticalIsCompilable | src/firestoreQueryUtil.js:74-98 | every grammatical query meets the compiler's precondition |
| SExpr.FromToSExpr | src/firestoreQueryUtil.js:28-35 | one `[tag, name]` item per source, same length and order; COLLECTION→"collection", COLGROUP→"collectionGroup", DOC→"doc"; the name is the payload |
| SExpr.LowerAscii | src/firestoreQueryUtil.js:19 | lower-casing keeps the length and maps each character on its own |
| SExpr.LoweredDirections | src/firestoreQueryUtil.js:19 | the direction tokens ASC and DESC lower-case to "asc" and "desc" |
| SExpr.OrderToSExpr | src/firestoreQueryUtil.js:16-21 | one `[field, lowercase(direction)]` pair per order term, in declaration order |
| SExpr.NodeCanonical | src/firestoreQueryUtil.js:37-62 | a `boolExpr` becomes an `and` item with at least two children; a `compExpr` becomes a `where` item with three; a `var` becomes a placeholder, never its name as a string; an array becomes the element-wise canonical array of the same length; literals and unknown kinds give their payload unchanged |
| SExpr.FlattenAndsAccum | src/firestoreQueryUtil.js:64-72 | flattenAnds only appends to the array it is given: the result is the accumulator followed by what the chain contributes |
| SExpr.FlattenAndsGrows | src/firestoreQueryUtil.js:64-72 | every flattenAnds call pushes at least one item |
| SExpr.ComparisonCanonical | src/firestoreQueryUtil.js:42-46 | a comparison becomes `["where", [left, op, right]]` with the operator string as it is |
| SExpr.FlattenConjunction | src/firestoreQueryUtil.js:64-72 | flattening a chain of N comparisons yields their N where items in source order, none of them an `and` |
| SExpr.WhereCanonical | src/firestoreQueryUtil.js:40-41 | a chain of N > 1 comparisons becomes one flat `["and", [s(c1), ..., s(cN)]]`; a lone comparison is a where item, not wrapped in `and` |
| SExpr.AstToSExpr | src/firestoreQueryUtil.js:11-26 | the root built by successive pushes equals the canonical form of the query |
| SExpr.SExprLayout | src/firestoreQueryUtil.js:11-26 | the canonical form is the source items in order, then exactly one predicate item, then an orderBy item iff there are order terms, then a limit item iff there is a limit; length \|from\| + 1 + [order ≠ ∅] + [limit ≠ null] |
| Plan.SExprPlannable | src/firestoreQueryUtil.js:78-79 | every canonical item is a `[head, second]` pair, and `second` is an array wherever astToPlan iterates over it |
| Plan.AstToPlan | src/firestoreQueryUtil.js:74-98 | the loop's plan equals the entries of every canonical item, concatenated in item order |
| Plan.PushEntries | src/firestoreQueryUtil.js:79-94 | one item's entries: the children of `and`, the `where` item itself, one `["orderBy", pair]` per pair, `[head, [p]]` for a non-array payload `p`, otherwise the item unchanged |
| Plan.PlanOfItemsAppend | src/firestoreQueryUtil.js:78-95 | plan order mirrors item order: the plan of two item lists is the plan of the first followed by the plan of the second |
| Plan.FromPlan | src/firestoreQueryUtil.js:90-91 | each source becomes `[tag, [name]]`, in order; the scalar name is wrapped, not passed through |
| Plan.OrderPlan | src/firestoreQueryUtil.js:86-89 | an orderBy item with k pairs gives k `["orderBy", [field, direction]]` entries, in order |
| Plan.LimitPlan | src/firestoreQueryUtil.js:90-91 | a limit L becomes `["limit", [L]]` |
| Plan.WherePlan | src/firestoreQueryUtil.js:80-85 | the predicate item gives one where entry per conjunct, in order |
| Plan.PlanLayout | src/firestoreQueryUtil.js:74-98 | the plan of a grammatical query is the source entries, then one where entry per conjunct, then one orderBy entry per term, then the limit entry |
| Plan.PlanLength | src/firestoreQueryUtil.js:74-98 | the plan has \|from\| + N + k + [limit ≠ null] entries, and each is a call of one of collection, collectionGroup, doc, where, orderBy, limit |
| Substitution.ReplaceElementwise | src/firestoreQueryUtil.js:110-126 | same length; an array is rewritten recursively; a bound placeholder is replaced by its binding, which is not rewritten further; an unbound one becomes null; every other value is unchanged |
| Substitution.ReplacePreservesShape | src/firestoreQueryUtil.js:111-113 | the output has the input's length at every nesting level, with arrays in the same places |
| Substitution.ReplaceKeepsArrays | src/firestoreQueryUtil.js:111-113 | for any bindings, the output has the input's length at every nesting level, and every array of the input is an array at the same place |
| Substitution.MissesInOrder | src/firestoreQueryUtil.js:114-118 | the callback fires once per unbound placeholder occurrence, in depth-first left-to-right order |
| Substitution.ValueMissesInOrder | src/firestoreQueryUtil.js:112-118 | the same for a single value of the list |
| Substitution.MissesEnclosing | src/firestoreQueryUtil.js:117 | each callback reports a name with no binding, together with an array that holds that placeholder |
| Substitution.NoVarsUnchanged | src/firestoreQueryUtil.js:110-126 | a list without placeholders comes back structurally equal, and no callback fires |
| Substitution.NoVarsUnchangedEach | src/firestoreQueryUtil.js:111-125 | the same for the tail of a list being mapped |
| Substitution.FullyResolved | src/firestoreQueryUtil.js:119-120 | when no binding holds a placeholder, no placeholder is left after substitution |
| Substitution.Idempotent | src/firestoreQueryUtil.js:110-126 | substituting a second time changes nothing and fires no callback |
| Applier.ResolvePlan | src/firestoreQueryUtil.js:101-105 | substitution keeps the number of plan entries, and each stays a `[method, args]` call |
| Applier.ResolvePlanElementwise | src/firestoreQueryUtil.js:101-105 | entry i of the issued plan calls the method of entry i with that entry's arguments substituted |
| Applier.ApplyToQuery | src/firestoreQueryUtil.js:100-108 | the result is the builder after replaying the substituted plan, each call on the previous call's result; the callbacks are those of substituting the plan |
| Applier.ApplyPlan | src/firestoreQueryUtil.js:101-107 | the loop that reassigns the builder computes that replay and collects those callbacks |
| Applier.ApplyStep | src/firestoreQueryUtil.js:102-105 | one turn of the loop extends the substituted prefix by one entry and the replay by one call |
| Applier.ReplayRecords | src/firestoreQueryUtil.js:102-105 | a recording builder records exactly the calls replayed, in order |
| Applier.ApplyToRecorder | src/firestoreQueryUtil.js:100-108 | applying a query to a recording builder issues exactly the substituted plan entries, in plan order |
| Applier.ResolveMissesInOrder | src/firestoreQueryUtil.js:116-118 | over a whole plan, the callback fires once per unbound placeholder, entry by entry and left to right within an entry |
| Applier.ResolveWithoutVars | src/firestoreQueryUtil.js:100-108 | a plan without placeholders is issued unchanged and fires no callback |
| Scenarios.SinglePlan | src/firestoreQueryUtil.js:84-85 | a lone comparison, in a query with nothing else, plans to exactly its where entry |
| Scenarios.ChainPlan | src/firestoreQueryUtil.js:80-83 | putting a comparison in front of a conjunction puts its where entry in front of the plan |
| Scenarios.ScenarioSingle | src/firestoreQueryUtil.js:74-98 | `a == 5` plans to `[["where", ["a", "==", 5]]]` |
| Scenarios.ScenarioTwoConjuncts | test/tests.js:133-139 | `a == false and b != true` plans to two where entries |
| Scenarios.ScenarioThreeComparisons | test/tests.js:141-148 | `a == false and b != true and c < 42` plans to three where entries |
| Scenarios.ScenarioThreeConjuncts | src/firestoreQueryUtil.js:80-83 | `a <= 5 and b > 1.5 and c != "hello"` plans to three where entries in field order, with operators `<=`, `>`, `!=` |
| Scenarios.ScenarioFourConjuncts | test/tests.js:149-161 | four comparisons, the last with a `not-in` array operand, plan to four where entries, with the array kept as an array |
| Scenarios.OrderTermsScenario | src/firestoreQueryUtil.js:19 | `ORDER BY a, b ASC, d DESC` gives `["a", "asc"]`, `["b", "asc"]`, `["d", "desc"]` |
| Scenarios.ScenarioFullQuery | src/firestoreQueryUtil.js:11-26 | `FROM "c1" WHERE a == 5 ORDER BY a, b ASC, d DESC LIMIT 20` plans to the collection entry, the where entry, three orderBy entries and `["limit", [20]]` |
| Scenarios.ScenarioBoundVariable | src/firestoreQueryUtil.js:100-108 | `a == ${x}` with `x` bound to 99, applied to a recording builder, issues the single call `where("a", "==", 99)` and reports nothing |
| Scenarios.ScenarioMissingVariables | src/firestoreQueryUtil.js:114-118 | with v1, v2, v3 and only v1 bound, the callback fires for v2 then v3, and both become null |

## Left out

- The parser that produces the tree is not part of this model. The model
  starts from the `Node` and `Query` datatypes.
- `playground.js` (page wiring, event handlers, JSON display) is user
  interface and is not modelled.
- The `console.warn` in the fallback branch of `whereToSExpr` is logging.
  Only the payload pass-through is modelled.
- Calls are made through `query[method].apply(...)`. The model replaces that
  reflection with an abstract builder function. A missing builder method,
  or a builder that throws part-way through the plan, is not modelled: the
  replay always completes.
- The not-found callback is a returned list of `(name, enclosing array)`
  records rather than a function called during the rewrite. Two behaviours
  of the callback are therefore not modelled:
  - the callback is called without checking that it was passed, so
    `applyToQuery` without one throws a `TypeError` at the first unbound
    placeholder, before that entry's builder call; the model puts `null`
    there and completes the replay;
  - a callback that throws stops `applyToQuery` part-way, with the builder
    calls of the earlier entries already made; the model always completes
    the replay and reports every unbound placeholder.
- The source crashes in some cases, and the preconditions exclude them
  instead of modelling the crash:
  - `Compilable`/`ChainOk` exclude a conjunction whose right spine reaches a
    node without an operator, where the source reads `op` of `undefined`;
  - `AllCalls` excludes a plan entry that is not a `[method, args]` pair:
    where the destructuring or `query[method]` fails, and also the longer
    entries described below. This can only happen
    for trees outside what the grammar produces; `Plan.PlanLength` shows
    that every grammatical query gives a plan of calls.
- Bindings are a finite map, and a name absent from it is unbound. Three
  JavaScript behaviours are not modelled:
  - a binding whose value is `undefined` (treated as unbound by the source);
  - names found on the object's prototype chain;
  - `vars` itself being `undefined`, which crashes on the first placeholder.
- Numbers are opaque `real` values. No arithmetic or float formatting is
  involved, and the integer limit is carried over as a number.
- `toLowerCase` is modelled for ASCII letters only. The direction tokens are
  ASCII.
- The array that `flattenAnds` pushes into is modelled as a threaded
  sequence value. Aliasing is not modelled: the array is fresh at every call
  site.
- `Substitution.ReplacePreservesShape`: the two-way shape equality (arrays
  exactly where the input had arrays) holds only when no binding is itself an
  array, since a placeholder bound to an array turns a scalar position into
  an array. The one-way promise, lengths kept at every nesting level, holds
  for all bindings and is `Substitution.ReplaceKeepsArrays`.
- Node kinds the canonicaliser has no case for are modelled only with a
  scalar payload (`Unknown`). The source's fallback returns whatever `v`
  holds, which may also be `undefined` or a raw array of unconverted nodes.
- `IsCall` demands that a plan entry have exactly two elements. The source
  would also destructure and issue an entry of three or more elements whose
  head is a string and whose second element is an array, ignoring the rest.
  The compiler builds such an entry only for a query outside the grammar: an
  `and` chain copies each non-`and` conjunct into the plan as it is, so an
  array literal `["where", [], "x"]` as a conjunct becomes a three-element
  entry. No entry the compiler builds for a grammatical query has that form
  (`Plan.PlanLength`).
- The first `astToPlan` case in `test/tests.js:128-131` expects an unwrapped
  entry, which disagrees with the code. The model follows the code.
