/** `get_module_act_func_pair` of the PyTorch connected-graph utilities:
    every op backed by a module maps that module to the activation module
    that immediately follows it (the module of the op's first consumer, when
    that module is an activation), or to None. Modules are ids; the class of
    a module is given by a total function from id to class name. */
module ConnectedGraphUtils {
  import opened Wrappers
  import opened Graph

  /** Class names of the activation modules (`ActivationTypes`). */
  const ActivationTypes: seq<string> :=
    ["ReLU6", "ReLU", "PReLU", "RReLU", "LeakyReLU", "Sigmoid", "LogSigmoid",
     "Softmin", "Softmax", "LogSoftmax", "Tanh", "Hardtanh"]

  /** The pair dictionary: module id to the following activation, if any. */
  type ActPairs = map<ModuleId, Option<ModuleId>>

  /** Every consumer of every op resolves in the graph. */
  predicate ConsumersResolve(g: OpGraph, ops: seq<Op>)
  {
    forall k, c | 0 <= k < |ops| && c in Consumers(ops[k]) :: c in g
  }

  /** `isinstance(next_module, ActivationTypes)`; None is no instance. */
  predicate IsActivation(classOf: ModuleId -> string, m: Option<ModuleId>)
  {
    m.Some? && classOf(m.value) in ActivationTypes
  }

  /** An op whose output has no consumer fails the source's assertion. */
  predicate Dangling(op: Op)
  {
    op.output.Some? && |op.output.value| == 0
  }

  /** What one op with a module contributes: None without an output, the
      first consumer's module when that is an activation, else None. */
  function Following(g: OpGraph, op: Op, classOf: ModuleId -> string): (r: Result<Option<ModuleId>>)
    requires forall c | c in Consumers(op) :: c in g
    ensures r.Err? <==> Dangling(op)
    ensures r.Err? ==> r.error == AssertionError
    ensures r.Ok? && r.value.Some? ==>
      IsActivation(classOf, r.value) && op.output.Some? && r.value == g[op.output.value[0]].moduleId
    ensures op.output.None? ==> r == Ok(None)
    ensures op.output.Some? && |op.output.value| > 0 && IsActivation(classOf, g[op.output.value[0]].moduleId) ==>
      r == Ok(g[op.output.value[0]].moduleId)
  {
    if op.output.None? then Ok(None)
    else if |op.output.value| == 0 then Err(AssertionError)
    else
      var next := g[op.output.value[0]].moduleId;
      if IsActivation(classOf, next) then Ok(next) else Ok(None)
  }

  /** The dictionary after visiting `ops` in order: an op without a module
      adds nothing, an op with one (re)sets its module's entry, and the
      first dangling op with a module aborts the walk. */
  function ActPairsOf(g: OpGraph, ops: seq<Op>, classOf: ModuleId -> string): Result<ActPairs>
    requires ConsumersResolve(g, ops)
  {
    if ops == [] then Ok(map[])
    else
      var prev := ActPairsOf(g, ops[..|ops| - 1], classOf);
      var op := ops[|ops| - 1];
      if prev.Err? || op.moduleId.None? then prev
      else
        var next := Following(g, op, classOf);
        if next.Err? then Err(next.error) else Ok(prev.value[op.moduleId.value := next.value])
  }

  lemma ResolvePrefix(g: OpGraph, ops: seq<Op>, n: nat)
    requires ConsumersResolve(g, ops) && n <= |ops|
    ensures ConsumersResolve(g, ops[..n])
  {
    assert forall k | 0 <= k < n :: ops[..n][k] == ops[k];
  }

  /** A dangling op with a module makes the whole walk fail. */
  lemma {:induction false} ActPairsFailAt(g: OpGraph, ops: seq<Op>, classOf: ModuleId -> string, k: nat)
    requires ConsumersResolve(g, ops)
    requires k < |ops| && ops[k].moduleId.Some? && Dangling(ops[k])
    ensures ActPairsOf(g, ops, classOf) == Err(AssertionError)
    decreases |ops|
  {
    var n := |ops| - 1;
    ResolvePrefix(g, ops, n);
    if k < n {
      assert ops[..n][k] == ops[k];
      ActPairsFailAt(g, ops[..n], classOf, k);
    } else {
      ActPairsSucceed(g, ops[..n], classOf);
    }
    assert ops[..|ops| - 1] == ops[..n];
  }

  /** Without a dangling op that has a module, the walk succeeds; a failure
      is always an AssertionError. */
  lemma {:induction false} ActPairsSucceed(g: OpGraph, ops: seq<Op>, classOf: ModuleId -> string)
    requires ConsumersResolve(g, ops)
    ensures ActPairsOf(g, ops, classOf).Err? ==> ActPairsOf(g, ops, classOf).error == AssertionError
    ensures (forall k | 0 <= k < |ops| :: ops[k].moduleId.None? || !Dangling(ops[k])) ==>
      ActPairsOf(g, ops, classOf).Ok?
    decreases |ops|
  {
    if ops != [] {
      var n := |ops| - 1;
      ResolvePrefix(g, ops, n);
      ActPairsSucceed(g, ops[..n], classOf);
      assert forall k | 0 <= k < n :: ops[..n][k] == ops[k];
    }
  }

  /** The keys are exactly the modules of the visited ops. */
  lemma {:induction false} ActPairsKeys(g: OpGraph, ops: seq<Op>, classOf: ModuleId -> string)
    requires ConsumersResolve(g, ops) && ActPairsOf(g, ops, classOf).Ok?
    ensures ActPairsOf(g, ops, classOf).value.Keys ==
      set k | 0 <= k < |ops| && ops[k].moduleId.Some? :: ops[k].moduleId.value
    decreases |ops|
  {
    if ops != [] {
      var n := |ops| - 1;
      ResolvePrefix(g, ops, n);
      ActPairsKeys(g, ops[..n], classOf);
      assert forall k | 0 <= k < n :: ops[..n][k] == ops[k];
      var before := set k | 0 <= k < n && ops[k].moduleId.Some? :: ops[k].moduleId.value;
      var after := set k | 0 <= k < |ops| && ops[k].moduleId.Some? :: ops[k].moduleId.value;
      if ops[n].moduleId.Some? {
        assert after == before + {ops[n].moduleId.value};
      } else {
        assert after == before;
      }
    }
  }

  /** Every non-None entry is an activation module. */
  lemma {:induction false} ActPairsAreActivations(g: OpGraph, ops: seq<Op>, classOf: ModuleId -> string)
    requires ConsumersResolve(g, ops) && ActPairsOf(g, ops, classOf).Ok?
    ensures forall m | m in ActPairsOf(g, ops, classOf).value ::
      ActPairsOf(g, ops, classOf).value[m].None? ||
      IsActivation(classOf, ActPairsOf(g, ops, classOf).value[m])
    decreases |ops|
  {
    if ops != [] {
      var n := |ops| - 1;
      ResolvePrefix(g, ops, n);
      ActPairsAreActivations(g, ops[..n], classOf);
    }
  }

  /** The last op backed by a module decides that module's entry. */
  lemma {:induction false} ActPairsLast(g: OpGraph, ops: seq<Op>, classOf: ModuleId -> string, k: nat)
    requires ConsumersResolve(g, ops) && ActPairsOf(g, ops, classOf).Ok?
    requires k < |ops| && ops[k].moduleId.Some?
    requires forall j | k < j < |ops| :: ops[j].moduleId != ops[k].moduleId
    ensures Following(g, ops[k], classOf).Ok?
    ensures ops[k].moduleId.value in ActPairsOf(g, ops, classOf).value
    ensures ActPairsOf(g, ops, classOf).value[ops[k].moduleId.value] == Following(g, ops[k], classOf).value
    decreases |ops|
  {
    var n := |ops| - 1;
    ResolvePrefix(g, ops, n);
    if k < n {
      assert ops[..n][k] == ops[k];
      assert forall j | k < j < n :: ops[..n][j] == ops[j];
      ActPairsLast(g, ops[..n], classOf, k);
    }
  }

  /** The source's loop over `all_ops.values()`. */
  method GetModuleActFuncPair(g: OpGraph, ops: seq<Op>, classOf: ModuleId -> string)
    returns (r: Result<ActPairs>)
    requires ConsumersResolve(g, ops)
    ensures r == ActPairsOf(g, ops, classOf)
  {
    var pairs: ActPairs := map[];
    for i := 0 to |ops|
      invariant ConsumersResolve(g, ops[..i])
      invariant ActPairsOf(g, ops[..i], classOf) == Ok(pairs)
    {
      ResolvePrefix(g, ops, i + 1);
      assert ops[..i + 1][..i] == ops[..i];
      assert ops[..i + 1][i] == ops[i];
      var op := ops[i];
      if op.moduleId.Some? {
        ghost var before := pairs;
        pairs := pairs[op.moduleId.value := None];
        if op.output.Some? {
          if |op.output.value| == 0 {
            ActPairsFailAt(g, ops, classOf, i);
            return Err(AssertionError);
          }
          var next := g[op.output.value[0]].moduleId;
          if IsActivation(classOf, next) {
            pairs := pairs[op.moduleId.value := next];
            assert pairs == before[op.moduleId.value := next];
          }
        }
      }
    }
    assert ops[..|ops|] == ops;
    return Ok(pairs);
  }
}
