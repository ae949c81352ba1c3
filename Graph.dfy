/** The connected-graph abstraction the core walks: every operation is a
    record with a stable id, a dotted name, a type tag, an optional backing
    module and an optional output product listing the consumers' ids. */
module Graph {
  import opened Wrappers

  type OpId = nat
  type ModuleId = nat

  datatype Op = Op(
    id: OpId,
    name: string,
    opType: string,
    moduleId: Option<ModuleId>,
    // `op.inputs and op.inputs[0].is_model_input`
    fedByModelInput: bool,
    // `op.output`: None, or the product's consumers in traversal order
    output: Option<seq<OpId>>)

  /** The graph: an arena of operations indexed by id. */
  type OpGraph = map<OpId, Op>

  /** Every stored op carries its own id and every consumer id resolves. */
  ghost predicate WellFormed(g: OpGraph)
  {
    (forall id | id in g :: g[id].id == id) &&
    (forall id | id in g && g[id].output.Some? ::
       forall c | c in g[id].output.value :: c in g)
  }

  /** The consumers of an op, empty when it has no output. */
  function Consumers(op: Op): seq<OpId>
  {
    if op.output.Some? then op.output.value else []
  }

  // Type tags of the TensorFlow graph used by cross-layer equalization.
  const Conv2D := "Conv2D"
  const Depthwise := "DepthwiseConv2dNative"
  const FusedBatchNormV3 := "FusedBatchNormV3"

  predicate IsConvType(t: string)
  {
    t == Conv2D || t == Depthwise
  }
}
