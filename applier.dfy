/** Replaying a plan on a query builder (src/firestoreQueryUtil.js,
    applyToQuery). The builder is abstract: a state of some type `B` and a
    function that performs one named method call on a state and returns the
    state the next call is made on. */
module Applier {
  import opened QueryValues
  import opened QueryAst
  import opened Plan
  import opened Substitution

  /** A plan with each entry's arguments substituted, and every callback
      fired along the way, entry by entry. */
  function ResolvePlan(plan: seq<Value>, vars: map<string, Value>): (r: Subst)
    requires AllCalls(plan)
    ensures |r.out| == |plan| && AllCalls(r.out)
  {
    if plan == [] then Subst([], [])
    else
      var n := |plan| - 1;
      AllCallsSlice(plan, 0, n);
      var rest := ResolvePlan(plan[..n], vars);
      var s := ReplaceParamVars(ArgsOf(plan[n]), vars);
      AllCallsAppend(rest.out, [Call(MethodOf(plan[n]), s.out)]);
      Subst(rest.out + [Call(MethodOf(plan[n]), s.out)], rest.misses + s.misses)
  }

  /** Entry `i` of the resolved plan calls the method of entry `i` of the
      plan with that entry's arguments substituted. */
  lemma {:induction false} ResolvePlanElementwise(plan: seq<Value>, vars: map<string, Value>)
    requires AllCalls(plan)
    ensures forall i :: 0 <= i < |plan| ==>
              ResolvePlan(plan, vars).out[i] == Call(MethodOf(plan[i]), ReplaceParamVars(ArgsOf(plan[i]), vars).out)
    decreases |plan|
  {
    if plan != [] {
      var n := |plan| - 1;
      AllCallsSlice(plan, 0, n);
      ResolvePlanElementwise(plan[..n], vars);
      var r := ResolvePlan(plan, vars).out;
      forall i | 0 <= i < n
        ensures r[i] == Call(MethodOf(plan[i]), ReplaceParamVars(ArgsOf(plan[i]), vars).out)
      {
        assert r[i] == ResolvePlan(plan[..n], vars).out[i];
        assert plan[i] == plan[..n][i];
      }
    }
  }

  /** The builder state after making each call in turn, each on the state
      the previous call returned. */
  function Replay<B>(call: (B, string, seq<Value>) -> B, query: B, calls: seq<Value>): B
    requires AllCalls(calls)
    decreases |calls|
  {
    if calls == [] then query
    else
      var n := |calls| - 1;
      AllCallsSlice(calls, 0, n);
      call(Replay(call, query, calls[..n]), MethodOf(calls[n]), ArgsOf(calls[n]))
  }

  /** applyToQuery: compiles the query, then replays its plan. */
  method ApplyToQuery<B>(query: B, q: Query, vars: map<string, Value>, call: (B, string, seq<Value>) -> B)
    returns (result: B, misses: seq<Miss>)
    requires Compilable(q) && AllCalls(PlanOf(q))
    ensures result == Replay(call, query, ResolvePlan(PlanOf(q), vars).out)
    ensures misses == ResolvePlan(PlanOf(q), vars).misses
  {
    var plan := AstToPlan(q);
    result, misses := ApplyPlan(query, plan, vars, call);
  }

  /** The loop of applyToQuery: for each entry, substitutes its arguments,
      calls its method on the current builder and continues with what the
      call returned. */
  method ApplyPlan<B>(query: B, plan: seq<Value>, vars: map<string, Value>, call: (B, string, seq<Value>) -> B)
    returns (result: B, misses: seq<Miss>)
    requires AllCalls(plan)
    ensures result == Replay(call, query, ResolvePlan(plan, vars).out)
    ensures misses == ResolvePlan(plan, vars).misses
  {
    result, misses := query, [];
    var i := 0;
    AllCallsSlice(plan, 0, 0);
    while i < |plan|
      invariant 0 <= i <= |plan| && AllCalls(plan[..i])
      invariant result == Replay(call, query, ResolvePlan(plan[..i], vars).out)
      invariant misses == ResolvePlan(plan[..i], vars).misses
    {
      var name, params := MethodOf(plan[i]), ArgsOf(plan[i]);
      var s := ReplaceParamVars(params, vars);
      ApplyStep(call, query, plan, i, vars);
      result := call(result, name, s.out);
      misses := misses + s.misses;
      i := i + 1;
    }
    assert plan[..i] == plan;
  }

  /** One turn of the loop: the resolved prefix grows by entry `i`, and its
      replay by the call of that entry on the previous result. */
  lemma ApplyStep<B>(call: (B, string, seq<Value>) -> B, query: B, plan: seq<Value>, i: nat, vars: map<string, Value>)
    requires AllCalls(plan) && i < |plan|
    ensures AllCalls(plan[..i]) && AllCalls(plan[..i + 1])
    ensures var s := ReplaceParamVars(ArgsOf(plan[i]), vars);
      var r := ResolvePlan(plan[..i], vars);
      && ResolvePlan(plan[..i + 1], vars) == Subst(r.out + [Call(MethodOf(plan[i]), s.out)], r.misses + s.misses)
      && Replay(call, query, ResolvePlan(plan[..i + 1], vars).out)
         == call(Replay(call, query, r.out), MethodOf(plan[i]), s.out)
  {
    AllCallsSlice(plan, 0, i);
    AllCallsSlice(plan, 0, i + 1);
    assert plan[..i + 1][..i] == plan[..i];
    assert plan[..i + 1][i] == plan[i];
    var r := ResolvePlan(plan[..i + 1], vars).out;
    assert r[..i] == ResolvePlan(plan[..i], vars).out;
  }

  /** A recording builder: its state is the list of calls it received, and
      each call returns the extended list. */
  function Record(log: seq<Value>, name: string, args: seq<Value>): seq<Value> {
    log + [Call(name, args)]
  }

  /** Replaying calls on a recording builder records exactly those calls, in order. */
  lemma {:induction false} ReplayRecords(log: seq<Value>, calls: seq<Value>)
    requires AllCalls(calls)
    ensures Replay(Record, log, calls) == log + calls
    decreases |calls|
  {
    if calls != [] {
      var n := |calls| - 1;
      AllCallsSlice(calls, 0, n);
      ReplayRecords(log, calls[..n]);
      CallParts(calls[n]);
      assert calls[..n] + [calls[n]] == calls;
    }
  }

  /** Applying a query to a recording builder issues exactly the substituted
      plan entries, in plan order. */
  method ApplyToRecorder(q: Query, vars: map<string, Value>) returns (log: seq<Value>, misses: seq<Miss>)
    requires Compilable(q) && AllCalls(PlanOf(q))
    ensures ResolvePlan(PlanOf(q), vars) == Subst(log, misses)
  {
    log, misses := ApplyToQuery([], q, vars, Record);
    ReplayRecords([], ResolvePlan(PlanOf(q), vars).out);
  }

  /** The names of the placeholders in a plan's arguments, entry by entry. */
  function PlanVarNames(plan: seq<Value>): seq<string>
    requires AllCalls(plan)
  {
    if plan == [] then []
    else
      var n := |plan| - 1;
      AllCallsSlice(plan, 0, n);
      PlanVarNames(plan[..n]) + VarNames(ArgsOf(plan[n]))
  }

  /** The not-found callbacks fire once per unbound placeholder occurrence,
      entry by entry and left to right within an entry. */
  lemma {:induction false} ResolveMissesInOrder(plan: seq<Value>, vars: map<string, Value>)
    requires AllCalls(plan)
    ensures MissNames(ResolvePlan(plan, vars).misses) == Unbound(PlanVarNames(plan), vars)
    decreases |plan|
  {
    if plan != [] {
      var n := |plan| - 1;
      AllCallsSlice(plan, 0, n);
      var args := ArgsOf(plan[n]);
      ResolveMissesInOrder(plan[..n], vars);
      MissesInOrder(args, args, vars);
      MissNamesAppend(ResolvePlan(plan[..n], vars).misses, ReplaceParamVars(args, vars).misses);
      UnboundAppend(PlanVarNames(plan[..n]), VarNames(args), vars);
    }
  }

  /** A plan whose arguments hold no placeholder is issued unchanged, and no
      callback fires. */
  lemma {:induction false} ResolveWithoutVars(plan: seq<Value>, vars: map<string, Value>)
    requires AllCalls(plan) && PlanVarNames(plan) == []
    ensures ResolvePlan(plan, vars) == Subst(plan, [])
    decreases |plan|
  {
    if plan != [] {
      var n := |plan| - 1;
      AllCallsSlice(plan, 0, n);
      var args := ArgsOf(plan[n]);
      assert PlanVarNames(plan[..n]) == [] && VarNames(args) == [];
      NoVarsUnchanged(args, vars);
      ResolveWithoutVars(plan[..n], vars);
      CallParts(plan[n]);
      assert plan[..n] + [plan[n]] == plan;
    }
  }
}
