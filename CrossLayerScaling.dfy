/** Cross-layer scaling of CLS sets (`CrossLayerScaling.scale_cls_set*`).
    The session's weight and bias tensors are a parameter store owned by a
    `Session` object; the numeric kernels `scaleLayerParams` and
    `scaleDepthWiseSeparableLayer` are function parameters. Each layer is
    read into the kernel's layout, scaled, and written back in TensorFlow's
    layout; a bias is handed over and written back only when the layer has
    one. */
module CrossLayerScaling {
  import opened Wrappers
  import opened Graph
  import opened Layout
  import opened ClsSets

  /** A layer's weight in TensorFlow layout [kh, kw, Nic, Noc], the shape of
      that tensor, and its bias when the layer has one. */
  datatype LayerParams = LayerParams(weight: Tensor4, shape: Shape, bias: Option<seq<real>>)

  type ParamStore = map<OpId, LayerParams>

  predicate ShapesValid(params: ParamStore)
  {
    forall id | id in params :: |params[id].shape| == 4
  }

  /** The graph's ops and the tensors of its layers. */
  class Session {
    var ops: seq<Op>
    var params: ParamStore

    constructor (ops: seq<Op>, params: ParamStore)
      ensures this.ops == ops && this.params == params
    {
      this.ops := ops;
      this.params := params;
    }
  }

  /** `libpymo.EqualizationParams` as handed to a kernel: weight and
      weightShape in kernel layout, and the bias (None for `isBiasNone`, or
      when the source does not set one). */
  datatype EqualizationParams = EqualizationParams(weight: Tensor4, weightShape: Shape, bias: Option<seq<real>>)

  /** The weight and bias a kernel leaves in one struct. */
  datatype Scaled = Scaled(weight: Tensor4, bias: seq<real>)
  datatype PairScaled = PairScaled(prev: Scaled, curr: Scaled, scale: ScaleVector)
  datatype TripletScaled = TripletScaled(prev: Scaled, curr: Scaled, next: Scaled,
                                         s12: ScaleVector, s23: ScaleVector)

  /** `libpymo.scaleLayerParams` and `libpymo.scaleDepthWiseSeparableLayer`. */
  type PairKernel = (EqualizationParams, EqualizationParams) -> PairScaled
  type TripletKernel = (EqualizationParams, EqualizationParams, EqualizationParams) -> TripletScaled

  /** Reads a layer into a kernel struct through `layout`, with its bias when
      `withBias`. */
  function ToKernel(p: LayerParams, layout: Perm, withBias: bool): (k: EqualizationParams)
    requires |p.shape| == 4 && IsPerm(layout)
    ensures |k.weightShape| == 4
  {
    EqualizationParams(Transpose(p.weight, p.shape, layout), Permute(layout, p.shape),
                       if withBias then p.bias else None)
  }

  /** A convolution read as [Noc, Nic, kh, kw]: `transpose((3, 2, 0, 1))`. */
  function ReadConv(p: LayerParams, withBias: bool): (k: EqualizationParams)
    requires |p.shape| == 4
    ensures |k.weightShape| == 4
  {
    assert IsPerm(ToKernelLayout);
    ToKernel(p, ToKernelLayout, withBias)
  }

  /** A depthwise convolution read as [Nic, Noc, kh, kw]:
      `transpose((2, 3, 0, 1))`. */
  function ReadDepthwise(p: LayerParams): (k: EqualizationParams)
    requires |p.shape| == 4
    ensures |k.weightShape| == 4
  {
    assert IsPerm(DepthwiseLayout);
    ToKernel(p, DepthwiseLayout, true)
  }

  /** `WeightTensorUtils.update_tensor_for_op` with the kernel's weight
      reshaped to `kernelShape` and transposed by `layout`. */
  function SetWeight(params: ParamStore, id: OpId, w: Tensor4, kernelShape: Shape, layout: Perm): (r: ParamStore)
    requires ShapesValid(params) && id in params && |kernelShape| == 4 && IsPerm(layout)
    ensures r.Keys == params.Keys && ShapesValid(r)
    ensures forall j | j in params && j != id :: r[j] == params[j]
    ensures r[id].bias == params[id].bias
    ensures r[id].weight == Transpose(w, kernelShape, layout) && r[id].shape == Permute(layout, kernelShape)
  {
    params[id := params[id].(weight := Transpose(w, kernelShape, layout),
                             shape := Permute(layout, kernelShape))]
  }

  /** A convolution's weight written back by `transpose((2, 3, 1, 0))`. */
  function WriteConv(params: ParamStore, id: OpId, w: Tensor4, kernelShape: Shape): (r: ParamStore)
    requires ShapesValid(params) && id in params && |kernelShape| == 4
    ensures r.Keys == params.Keys && ShapesValid(r)
    ensures forall j | j in params && j != id :: r[j] == params[j]
    ensures r[id].bias == params[id].bias
    ensures IsPerm(FromKernelLayout)
    ensures r[id].weight == Transpose(w, kernelShape, FromKernelLayout)
    ensures r[id].shape == Permute(FromKernelLayout, kernelShape)
  {
    assert IsPerm(FromKernelLayout);
    SetWeight(params, id, w, kernelShape, FromKernelLayout)
  }

  /** A depthwise weight written back by `transpose((2, 3, 0, 1))`. */
  function WriteDepthwise(params: ParamStore, id: OpId, w: Tensor4, kernelShape: Shape): (r: ParamStore)
    requires ShapesValid(params) && id in params && |kernelShape| == 4
    ensures r.Keys == params.Keys && ShapesValid(r)
    ensures forall j | j in params && j != id :: r[j] == params[j]
    ensures r[id].bias == params[id].bias
    ensures IsPerm(DepthwiseLayout)
    ensures r[id].weight == Transpose(w, kernelShape, DepthwiseLayout)
    ensures r[id].shape == Permute(DepthwiseLayout, kernelShape)
  {
    assert IsPerm(DepthwiseLayout);
    SetWeight(params, id, w, kernelShape, DepthwiseLayout)
  }

  /** `BiasUtils.update_bias_for_op`, taken only when the layer has a bias. */
  function SetBias(params: ParamStore, id: OpId, b: seq<real>): (r: ParamStore)
    requires ShapesValid(params) && id in params
    ensures r.Keys == params.Keys && ShapesValid(r)
    ensures forall j | j in params && j != id :: r[j] == params[j]
    ensures r[id].bias.Some? == params[id].bias.Some?
    ensures r[id].weight == params[id].weight && r[id].shape == params[id].shape
    ensures params[id].bias.Some? ==> r[id].bias == Some(b)
    ensures params[id].bias.None? ==> r == params
  {
    if params[id].bias.Some? then params[id := params[id].(bias := Some(b))] else params
  }

  /** Both members of a pair or all three of a triplet are Conv2D/depthwise. */
  predicate ConvMembers(cls: ClsSet)
  {
    IsConvType(cls.first.opType) && IsConvType(cls.second.opType) &&
    (cls.Triplet? ==> IsConvType(cls.third.opType))
  }

  /** Every member of `cls` has tensors in the store. */
  predicate Stored(params: ParamStore, cls: ClsSet)
  {
    cls.first.id in params && cls.second.id in params && (cls.Triplet? ==> cls.third.id in params)
  }

  predicate Member(id: OpId, cls: ClsSet)
  {
    id == cls.first.id || id == cls.second.id || (cls.Triplet? && id == cls.third.id)
  }

  /** The TensorFlow-layout weight a convolution stored as `p` holds once
      the kernel-layout weight `w` is written back over it. */
  function ConvBack(w: Tensor4, p: LayerParams): Tensor4
    requires |p.shape| == 4
  {
    assert IsPerm(FromKernelLayout);
    Transpose(w, Permute(ToKernelLayout, p.shape), FromKernelLayout)
  }

  /** The same for a depthwise layer. */
  function DepthwiseBack(w: Tensor4, p: LayerParams): Tensor4
    requires |p.shape| == 4
  {
    assert IsPerm(DepthwiseLayout);
    Transpose(w, Permute(DepthwiseLayout, p.shape), DepthwiseLayout)
  }

  /** What the pair kernel returns for the pair's stored tensors. */
  function PairOut(params: ParamStore, a: Op, b: Op, kernel: PairKernel): PairScaled
    requires ShapesValid(params) && a.id in params && b.id in params
  {
    kernel(ReadConv(params[a.id], true), ReadConv(params[b.id], false))
  }

  /** What the triplet kernel returns for the triplet's stored tensors. */
  function TripletOut(params: ParamStore, a: Op, b: Op, c: Op, kernel: TripletKernel): TripletScaled
    requires ShapesValid(params) && a.id in params && b.id in params && c.id in params
  {
    kernel(ReadConv(params[a.id], true), ReadDepthwise(params[b.id]), ReadConv(params[c.id], false))
  }

  /** `q` holds the pair's kernel output `out` written over `params`: the
      second weight, and the first unless it is the same layer (written
      before it), come back in TensorFlow layout with their shapes kept; the
      first layer's bias, where it has one, is the kernel's. */
  predicate PairWritten(params: ParamStore, q: ParamStore, a: OpId, b: OpId, out: PairScaled)
    requires ShapesValid(params) && a in params && b in params && a in q && b in q
  {
    q[b].weight == ConvBack(out.curr.weight, params[b]) &&
    q[a].shape == params[a].shape && q[b].shape == params[b].shape &&
    (a != b ==> q[a].weight == ConvBack(out.prev.weight, params[a])) &&
    (params[a].bias.Some? ==> q[a].bias == Some(out.prev.bias))
  }

  /** `q` holds the triplet's kernel output written over `params` in source
      order (first, middle, last weight; first, middle bias): a later write
      to the same layer wins. */
  predicate TripletWritten(params: ParamStore, q: ParamStore, a: OpId, b: OpId, c: OpId, out: TripletScaled)
    requires ShapesValid(params) && a in params && b in params && c in params
    requires a in q && b in q && c in q
  {
    q[c].weight == ConvBack(out.next.weight, params[c]) &&
    (b != c ==> q[b].weight == DepthwiseBack(out.curr.weight, params[b])) &&
    (a != b && a != c ==> q[a].weight == ConvBack(out.prev.weight, params[a])) &&
    q[a].shape == params[a].shape && q[b].shape == params[b].shape && q[c].shape == params[c].shape &&
    (params[b].bias.Some? ==> q[b].bias == Some(out.curr.bias)) &&
    (a != b && params[a].bias.Some? ==> q[a].bias == Some(out.prev.bias))
  }

  /** `scale_cls_set_with_conv_layers` on a store: both layers in kernel
      layout (3, 2, 0, 1), the first with its bias; both weights written back
      through (2, 3, 1, 0), then the first layer's bias if it has one. */
  function ScalePair(params: ParamStore, a: Op, b: Op, kernel: PairKernel): (r: (ParamStore, ScaleVector))
    requires ShapesValid(params) && a.id in params && b.id in params
    ensures r.0.Keys == params.Keys && ShapesValid(r.0)
    ensures forall id | id in params && id != a.id && id != b.id :: r.0[id] == params[id]
    ensures forall id | id in params :: r.0[id].bias.Some? == params[id].bias.Some?
    ensures a.id != b.id ==> r.0[b.id].bias == params[b.id].bias
    ensures PairWritten(params, r.0, a.id, b.id, PairOut(params, a, b, kernel))
    ensures r.1 == PairOut(params, a, b, kernel).scale
  {
    var ka := ReadConv(params[a.id], true);
    var kb := ReadConv(params[b.id], false);
    var out := PairOut(params, a, b, kernel);
    var p1 := WriteConv(params, a.id, out.prev.weight, ka.weightShape);
    var p2 := WriteConv(p1, b.id, out.curr.weight, kb.weightShape);
    (SetBias(p2, a.id, out.prev.bias), out.scale)
  }

  /** `scale_cls_set_with_depthwise_layers` on a store: the middle
      (depthwise) layer goes through (2, 3, 0, 1) both ways, the outer layers
      as in a pair; the biases of the first two layers are handed over and
      written back when present. */
  function ScaleTriplet(params: ParamStore, a: Op, b: Op, c: Op, kernel: TripletKernel)
    : (r: (ParamStore, ScaleVector, ScaleVector))
    requires ShapesValid(params) && a.id in params && b.id in params && c.id in params
    ensures r.0.Keys == params.Keys && ShapesValid(r.0)
    ensures forall id | id in params && id != a.id && id != b.id && id != c.id :: r.0[id] == params[id]
    ensures forall id | id in params :: r.0[id].bias.Some? == params[id].bias.Some?
    ensures c.id != a.id && c.id != b.id ==> r.0[c.id].bias == params[c.id].bias
    ensures TripletWritten(params, r.0, a.id, b.id, c.id, TripletOut(params, a, b, c, kernel))
    ensures r.1 == TripletOut(params, a, b, c, kernel).s12 && r.2 == TripletOut(params, a, b, c, kernel).s23
  {
    var ka := ReadConv(params[a.id], true);
    var kb := ReadDepthwise(params[b.id]);
    var kc := ReadConv(params[c.id], false);
    var out := TripletOut(params, a, b, c, kernel);
    var p3 := WriteTripletWeights(params, a.id, b.id, c.id, out, ka.weightShape, kb.weightShape, kc.weightShape);
    (WriteTripletBiases(p3, a.id, b.id, out), out.s12, out.s23)
  }

  /** The three weights of a triplet written back, in source order. */
  function WriteTripletWeights(params: ParamStore, a: OpId, b: OpId, c: OpId, out: TripletScaled,
                               sa: Shape, sb: Shape, sc: Shape): (r: ParamStore)
    requires ShapesValid(params) && a in params && b in params && c in params
    requires |sa| == 4 && |sb| == 4 && |sc| == 4
    ensures r.Keys == params.Keys && ShapesValid(r)
    ensures forall id | id in params && id != a && id != b && id != c :: r[id] == params[id]
    ensures forall id | id in params :: r[id].bias == params[id].bias
    ensures IsPerm(FromKernelLayout) && IsPerm(DepthwiseLayout)
    ensures r[c].weight == Transpose(out.next.weight, sc, FromKernelLayout) && r[c].shape == Permute(FromKernelLayout, sc)
    ensures b != c ==>
      r[b].weight == Transpose(out.curr.weight, sb, DepthwiseLayout) && r[b].shape == Permute(DepthwiseLayout, sb)
    ensures a != b && a != c ==>
      r[a].weight == Transpose(out.prev.weight, sa, FromKernelLayout) && r[a].shape == Permute(FromKernelLayout, sa)
  {
    var p1 := WriteConv(params, a, out.prev.weight, sa);
    var p2 := WriteDepthwise(p1, b, out.curr.weight, sb);
    WriteConv(p2, c, out.next.weight, sc)
  }

  /** The biases of a triplet's first two layers written back where they
      exist. */
  function WriteTripletBiases(params: ParamStore, a: OpId, b: OpId, out: TripletScaled): (r: ParamStore)
    requires ShapesValid(params) && a in params && b in params
    ensures r.Keys == params.Keys && ShapesValid(r)
    ensures forall id | id in params && id != a && id != b :: r[id] == params[id]
    ensures forall id | id in params :: r[id].bias.Some? == params[id].bias.Some?
    ensures forall id | id in params :: r[id].weight == params[id].weight && r[id].shape == params[id].shape
    ensures params[b].bias.Some? ==> r[b].bias == Some(out.curr.bias)
    ensures a != b && params[a].bias.Some? ==> r[a].bias == Some(out.prev.bias)
  {
    SetBias(SetBias(params, a, out.prev.bias), b, out.curr.bias)
  }

  /** `scale_cls_set`: a ValueError before any write when a member is not a
      convolution, else the depthwise path for a triplet and the pair path
      otherwise. */
  function ScaleSet(params: ParamStore, cls: ClsSet, pk: PairKernel, tk: TripletKernel)
    : (r: (ParamStore, Result<ScaleFactor>))
    requires ShapesValid(params) && Stored(params, cls)
    ensures r.0.Keys == params.Keys && ShapesValid(r.0)
    ensures r.1.Err? <==> !ConvMembers(cls)
    ensures r.1.Err? ==> r.1.error == ValueError && r.0 == params
    ensures r.1.Ok? ==> (r.1.value.Double? <==> cls.Triplet?)
    ensures forall id | id in params && !Member(id, cls) :: r.0[id] == params[id]
    ensures forall id | id in params :: r.0[id].bias.Some? == params[id].bias.Some?
    ensures r.1.Ok? && cls.Pair? ==>
      var out := PairOut(params, cls.first, cls.second, pk);
      PairWritten(params, r.0, cls.first.id, cls.second.id, out) && r.1.value == Single(out.scale)
    ensures r.1.Ok? && cls.Triplet? ==>
      var out := TripletOut(params, cls.first, cls.second, cls.third, tk);
      TripletWritten(params, r.0, cls.first.id, cls.second.id, cls.third.id, out) &&
      r.1.value == Double(out.s12, out.s23)
  {
    if !ConvMembers(cls) then (params, Err(ValueError))
    else if cls.Triplet? then
      var t := ScaleTriplet(params, cls.first, cls.second, cls.third, tk);
      (t.0, Ok(Double(t.1, t.2)))
    else
      var t := ScalePair(params, cls.first, cls.second, pk);
      (t.0, Ok(Single(t.1)))
  }

  predicate AllStored(params: ParamStore, sets: seq<ClsSet>)
  {
    forall k | 0 <= k < |sets| :: Stored(params, sets[k])
  }

  /** One set's scaling as a step over the store: the new store and the
      set's scale factor or error. */
  type SetStep = (ParamStore, ClsSet) --> (ParamStore, Result<ScaleFactor>)

  /** `scale_cls_set` with the given kernels, as a step. */
  function ScaleSetStep(pk: PairKernel, tk: TripletKernel): SetStep
  {
    (params: ParamStore, cls: ClsSet) requires ShapesValid(params) && Stored(params, cls) =>
      ScaleSet(params, cls, pk, tk)
  }

  /** A step defined on every valid store holding the set, which keeps the
      store's keys and validity. */
  ghost predicate StepDefined(step: SetStep)
  {
    forall p: ParamStore, c: ClsSet | ShapesValid(p) && Stored(p, c) ::
      step.requires(p, c) && step(p, c).0.Keys == p.Keys && ShapesValid(step(p, c).0)
  }

  /** A step fails, with ValueError, exactly on a set with a
      non-convolution member. */
  ghost predicate StepFails(step: SetStep)
    requires StepDefined(step)
  {
    forall p: ParamStore, c: ClsSet | ShapesValid(p) && Stored(p, c) ::
      (step(p, c).1.Err? <==> !ConvMembers(c)) &&
      (step(p, c).1.Err? ==> step(p, c).1.error == ValueError)
  }

  /** A successful step yields a tuple exactly for a triplet. */
  ghost predicate StepFactors(step: SetStep)
    requires StepDefined(step)
  {
    forall p: ParamStore, c: ClsSet | ShapesValid(p) && Stored(p, c) && step(p, c).1.Ok? ::
      step(p, c).1.value.Double? <==> c.Triplet?
  }

  /** A step writes only the set's layers. */
  ghost predicate StepFrame(step: SetStep)
    requires StepDefined(step)
  {
    forall p: ParamStore, c: ClsSet, id: OpId | ShapesValid(p) && Stored(p, c) && id in p && !Member(id, c) ::
      step(p, c).0[id] == p[id]
  }

  /** A step keeps every layer's having or lacking a bias. */
  ghost predicate StepKeepsBiasPresence(step: SetStep)
    requires StepDefined(step)
  {
    forall p: ParamStore, c: ClsSet, id: OpId | ShapesValid(p) && Stored(p, c) && id in p ::
      step(p, c).0[id].bias.Some? == p[id].bias.Some?
  }

  /** The step of `ScaleSet` is defined on every valid store holding the set. */
  lemma ScaleSetStepDefined(pk: PairKernel, tk: TripletKernel)
    ensures StepDefined(ScaleSetStep(pk, tk))
  {
  }

  /** A step keeps every layer's shape. */
  ghost predicate StepKeepsShapes(step: SetStep)
    requires StepDefined(step)
  {
    forall p: ParamStore, c: ClsSet, id: OpId | ShapesValid(p) && Stored(p, c) && id in p ::
      step(p, c).0[id].shape == p[id].shape
  }

  /** Scaling one set keeps every layer's shape: members take back their
      shapes through the inverse layouts, other layers are not written. */
  lemma ScaleSetKeepsShapes(params: ParamStore, cls: ClsSet, pk: PairKernel, tk: TripletKernel)
    requires ShapesValid(params) && Stored(params, cls)
    ensures forall id | id in params :: ScaleSet(params, cls, pk, tk).0[id].shape == params[id].shape
  {
    var r := ScaleSet(params, cls, pk, tk);
    forall id | id in params
      ensures r.0[id].shape == params[id].shape
    {
      if Member(id, cls) && r.1.Ok? {
        if cls.Triplet? {
          var out := TripletOut(params, cls.first, cls.second, cls.third, tk);
          assert TripletWritten(params, r.0, cls.first.id, cls.second.id, cls.third.id, out);
        } else {
          var out := PairOut(params, cls.first, cls.second, pk);
          assert PairWritten(params, r.0, cls.first.id, cls.second.id, out);
        }
      }
    }
  }

  /** The step of `ScaleSet` keeps every layer's shape. */
  lemma ScaleSetStepKeepsShapes(pk: PairKernel, tk: TripletKernel)
    ensures StepDefined(ScaleSetStep(pk, tk)) && StepKeepsShapes(ScaleSetStep(pk, tk))
  {
    ScaleSetStepDefined(pk, tk);
    forall p: ParamStore, c: ClsSet | ShapesValid(p) && Stored(p, c)
      ensures forall id | id in p :: ScaleSetStep(pk, tk)(p, c).0[id].shape == p[id].shape
    {
      ScaleSetKeepsShapes(p, c, pk, tk);
    }
  }

  /** What `ScaleSet` promises of one set holds of its step. */
  lemma ScaleSetStepProperties(pk: PairKernel, tk: TripletKernel)
    ensures StepDefined(ScaleSetStep(pk, tk))
    ensures StepFails(ScaleSetStep(pk, tk)) && StepFactors(ScaleSetStep(pk, tk))
    ensures StepFrame(ScaleSetStep(pk, tk)) && StepKeepsBiasPresence(ScaleSetStep(pk, tk))
  {
  }

  /** `scale_cls_sets`: the sets in order; an error stops the walk and the
      stores written before it stay written. */
  function ScaleAll(params: ParamStore, sets: seq<ClsSet>, step: SetStep)
    : (r: (ParamStore, Result<seq<ScaleFactor>>))
    requires StepDefined(step) && ShapesValid(params) && AllStored(params, sets)
    ensures r.0.Keys == params.Keys && ShapesValid(r.0)
    decreases |sets|
  {
    if sets == [] then (params, Ok([]))
    else
      var first := step(params, sets[0]);
      if first.1.Err? then (first.0, Err(first.1.error))
      else
        StoredTail(params, first.0, sets);
        var rest := ScaleAll(first.0, sets[1..], step);
        (rest.0, if rest.1.Ok? then Ok([first.1.value] + rest.1.value) else rest.1)
  }

  /** A store with the same keys still holds the remaining sets. */
  lemma StoredTail(params: ParamStore, p1: ParamStore, sets: seq<ClsSet>)
    requires AllStored(params, sets) && p1.Keys == params.Keys && sets != []
    ensures AllStored(p1, sets[1..])
  {
    forall k | 0 <= k < |sets[1..]|
      ensures Stored(p1, sets[1..][k])
    {
      assert sets[1..][k] == sets[k + 1];
    }
  }

  /** Every member of every set is a convolution. */
  predicate AllConv(sets: seq<ClsSet>)
  {
    forall k | 0 <= k < |sets| :: ConvMembers(sets[k])
  }

  /** The walk fails, with ValueError, exactly when some set has a
      non-convolution member. */
  lemma {:induction false} ScaleAllFails(params: ParamStore, sets: seq<ClsSet>, step: SetStep)
    requires StepDefined(step) && StepFails(step) && ShapesValid(params) && AllStored(params, sets)
    ensures var r := ScaleAll(params, sets, step).1;
      (r.Err? <==> !AllConv(sets)) && (r.Err? ==> r.error == ValueError)
    decreases |sets|
  {
    if sets != [] {
      var first := step(params, sets[0]);
      if first.1.Ok? {
        StoredTail(params, first.0, sets);
        ScaleAllFails(first.0, sets[1..], step);
        assert AllConv(sets) <==> AllConv(sets[1..]) by {
          if AllConv(sets[1..]) {
            forall k | 1 <= k < |sets|
              ensures ConvMembers(sets[k])
            {
              assert sets[k] == sets[1..][k - 1];
            }
          }
          if AllConv(sets) {
            forall k | 0 <= k < |sets[1..]|
              ensures ConvMembers(sets[1..][k])
            {
              assert sets[1..][k] == sets[k + 1];
            }
          }
        }
      }
    }
  }

  /** One scale factor per set, a tuple exactly for a triplet. */
  predicate FactorsMatch(fs: seq<ScaleFactor>, sets: seq<ClsSet>)
  {
    |fs| == |sets| && forall k | 0 <= k < |sets| :: (fs[k].Double? <==> sets[k].Triplet?)
  }

  lemma FactorsMatchCons(f: ScaleFactor, fs: seq<ScaleFactor>, sets: seq<ClsSet>)
    requires sets != [] && (f.Double? <==> sets[0].Triplet?) && FactorsMatch(fs, sets[1..])
    ensures FactorsMatch([f] + fs, sets)
  {
    forall k | 1 <= k < |sets|
      ensures ([f] + fs)[k].Double? <==> sets[k].Triplet?
    {
      assert ([f] + fs)[k] == fs[k - 1] && sets[k] == sets[1..][k - 1];
    }
  }

  /** On success the factors match the sets. */
  lemma {:induction false} ScaleAllFactors(params: ParamStore, sets: seq<ClsSet>, step: SetStep)
    requires StepDefined(step) && StepFactors(step) && ShapesValid(params) && AllStored(params, sets)
    ensures var r := ScaleAll(params, sets, step).1;
      r.Ok? ==> FactorsMatch(r.value, sets)
    decreases |sets|
  {
    if sets != [] {
      var first := step(params, sets[0]);
      if first.1.Ok? {
        StoredTail(params, first.0, sets);
        var rest := ScaleAll(first.0, sets[1..], step);
        ScaleAllFactors(first.0, sets[1..], step);
        if rest.1.Ok? {
          FactorsMatchCons(first.1.value, rest.1.value, sets);
        }
      }
    }
  }

  /** Layers outside every set keep their tensors. */
  lemma {:induction false} ScaleAllUntouched(params: ParamStore, sets: seq<ClsSet>, step: SetStep, id: OpId)
    requires StepDefined(step) && StepFrame(step) && ShapesValid(params) && AllStored(params, sets)
    requires id in params && forall k | 0 <= k < |sets| :: !Member(id, sets[k])
    ensures ScaleAll(params, sets, step).0[id] == params[id]
    decreases |sets|
  {
    if sets != [] {
      var first := step(params, sets[0]);
      if first.1.Ok? {
        StoredTail(params, first.0, sets);
        forall k | 0 <= k < |sets[1..]|
          ensures !Member(id, sets[1..][k])
        {
          assert sets[1..][k] == sets[k + 1];
        }
        ScaleAllUntouched(first.0, sets[1..], step, id);
      }
    }
  }

  /** Every layer keeps or lacks a bias as before: a bias is written back
      only where one exists. */
  lemma {:induction false} ScaleAllKeepsBiasPresence(params: ParamStore, sets: seq<ClsSet>, step: SetStep, id: OpId)
    requires StepDefined(step) && StepKeepsBiasPresence(step) && ShapesValid(params) && AllStored(params, sets) && id in params
    ensures ScaleAll(params, sets, step).0[id].bias.Some? == params[id].bias.Some?
    decreases |sets|
  {
    if sets != [] {
      var first := step(params, sets[0]);
      if first.1.Ok? {
        StoredTail(params, first.0, sets);
        ScaleAllKeepsBiasPresence(first.0, sets[1..], step, id);
      }
    }
  }

  /** No layer's shape changes over the walk: the write-back layouts invert
      the read layouts, so every set's step keeps shapes. */
  lemma {:induction false} ScaleAllKeepsShapes(params: ParamStore, sets: seq<ClsSet>, step: SetStep, id: OpId)
    requires StepDefined(step) && StepKeepsShapes(step) && ShapesValid(params) && AllStored(params, sets) && id in params
    ensures ScaleAll(params, sets, step).0[id].shape == params[id].shape
    decreases |sets|
  {
    if sets != [] {
      var first := step(params, sets[0]);
      if first.1.Ok? {
        StoredTail(params, first.0, sets);
        ScaleAllKeepsShapes(first.0, sets[1..], step, id);
      }
    }
  }

  /** `scale_cls_set_with_conv_layers`: the type check raises ValueError
      before anything is read or written. */
  method ScaleClsSetWithConvLayers(sess: Session, a: Op, b: Op, kernel: PairKernel) returns (r: Result<ScaleVector>)
    requires ShapesValid(sess.params) && a.id in sess.params && b.id in sess.params
    modifies sess
    ensures sess.ops == old(sess.ops)
    ensures !(IsConvType(a.opType) && IsConvType(b.opType)) ==>
      r == Err(ValueError) && sess.params == old(sess.params)
    ensures IsConvType(a.opType) && IsConvType(b.opType) ==>
      sess.params == ScalePair(old(sess.params), a, b, kernel).0 &&
      r == Ok(ScalePair(old(sess.params), a, b, kernel).1)
  {
    if !IsConvType(a.opType) || !IsConvType(b.opType) {
      return Err(ValueError);
    }
    var prev := ReadConv(sess.params[a.id], true);
    var curr := ReadConv(sess.params[b.id], false);
    var out := kernel(prev, curr);
    sess.params := WriteConv(sess.params, a.id, out.prev.weight, prev.weightShape);
    sess.params := WriteConv(sess.params, b.id, out.curr.weight, curr.weightShape);
    sess.params := SetBias(sess.params, a.id, out.prev.bias);
    r := Ok(out.scale);
  }

  /** `scale_cls_set_with_depthwise_layers`. */
  method ScaleClsSetWithDepthwiseLayers(sess: Session, a: Op, b: Op, c: Op, kernel: TripletKernel)
    returns (r: Result<(ScaleVector, ScaleVector)>)
    requires ShapesValid(sess.params) && a.id in sess.params && b.id in sess.params && c.id in sess.params
    modifies sess
    ensures sess.ops == old(sess.ops)
    ensures !(IsConvType(a.opType) && IsConvType(b.opType) && IsConvType(c.opType)) ==>
      r == Err(ValueError) && sess.params == old(sess.params)
    ensures IsConvType(a.opType) && IsConvType(b.opType) && IsConvType(c.opType) ==>
      var t := ScaleTriplet(old(sess.params), a, b, c, kernel);
      sess.params == t.0 && r == Ok((t.1, t.2))
  {
    if !IsConvType(a.opType) || !IsConvType(b.opType) || !IsConvType(c.opType) {
      return Err(ValueError);
    }
    var prev := ReadConv(sess.params[a.id], true);
    var curr := ReadDepthwise(sess.params[b.id]);
    var next := ReadConv(sess.params[c.id], false);
    var out := kernel(prev, curr, next);
    sess.params := WriteConv(sess.params, a.id, out.prev.weight, prev.weightShape);
    sess.params := WriteDepthwise(sess.params, b.id, out.curr.weight, curr.weightShape);
    sess.params := WriteConv(sess.params, c.id, out.next.weight, next.weightShape);
    sess.params := SetBias(sess.params, a.id, out.prev.bias);
    sess.params := SetBias(sess.params, b.id, out.curr.bias);
    r := Ok((out.s12, out.s23));
  }

  /** `scale_cls_set`: the depthwise path exactly for a set of three. */
  method ScaleClsSet(sess: Session, cls: ClsSet, pk: PairKernel, tk: TripletKernel) returns (r: Result<ScaleFactor>)
    requires ShapesValid(sess.params) && Stored(sess.params, cls)
    modifies sess
    ensures sess.ops == old(sess.ops)
    ensures (sess.params, r) == ScaleSet(old(sess.params), cls, pk, tk)
  {
    if cls.Triplet? {
      var t := ScaleClsSetWithDepthwiseLayers(sess, cls.first, cls.second, cls.third, tk);
      r := if t.Ok? then Ok(Double(t.value.0, t.value.1)) else Err(t.error);
    } else {
      var s := ScaleClsSetWithConvLayers(sess, cls.first, cls.second, pk);
      r := if s.Ok? then Ok(Single(s.value)) else Err(s.error);
    }
  }

  /** The factors gathered before position i joined to the walk's result
      from i on. */
  function Joined(fs: seq<ScaleFactor>, r: Result<seq<ScaleFactor>>): Result<seq<ScaleFactor>>
  {
    if r.Ok? then Ok(fs + r.value) else r
  }

  lemma JoinedEmpty(r: Result<seq<ScaleFactor>>)
    ensures Joined([], r) == r
  {
    if r.Ok? {
      assert [] + r.value == r.value;
    }
  }

  lemma JoinedAssoc(fs: seq<ScaleFactor>, f: ScaleFactor, r: Result<seq<ScaleFactor>>)
    ensures Joined(fs, Joined([f], r)) == Joined(fs + [f], r)
  {
    if r.Ok? {
      assert fs + ([f] + r.value) == (fs + [f]) + r.value;
    }
  }

  /** One step of the walk: it stops at a failing set and otherwise joins
      the set's factor to the rest. */
  lemma ScaleAllUnfold(params: ParamStore, sets: seq<ClsSet>, step: SetStep)
    requires StepDefined(step) && ShapesValid(params) && AllStored(params, sets) && sets != []
    ensures step(params, sets[0]).1.Err? ==>
      ScaleAll(params, sets, step) == (step(params, sets[0]).0, Err(step(params, sets[0]).1.error))
    ensures step(params, sets[0]).1.Ok? ==>
      AllStored(step(params, sets[0]).0, sets[1..]) &&
      var rest := ScaleAll(step(params, sets[0]).0, sets[1..], step);
      ScaleAll(params, sets, step) == (rest.0, Joined([step(params, sets[0]).1.value], rest.1))
  {
    StoredTail(params, step(params, sets[0]).0, sets);
  }

  lemma StepApplied(pk: PairKernel, tk: TripletKernel, params: ParamStore, cls: ClsSet)
    requires ShapesValid(params) && Stored(params, cls)
    ensures ScaleSetStep(pk, tk).requires(params, cls)
    ensures ScaleSetStep(pk, tk)(params, cls) == ScaleSet(params, cls, pk, tk)
  {
  }

  /** One round of `scale_cls_sets`: scales set i and accounts for it in
      the walk's result from i on. */
  method ScaleNext(sess: Session, sets: seq<ClsSet>, i: nat, pk: PairKernel, tk: TripletKernel,
                   factors: seq<ScaleFactor>, ghost whole: (ParamStore, Result<seq<ScaleFactor>>))
    returns (f: Result<ScaleFactor>)
    requires StepDefined(ScaleSetStep(pk, tk)) && i < |sets|
    requires ShapesValid(sess.params) && AllStored(sess.params, sets[i..])
    requires whole == (ScaleAll(sess.params, sets[i..], ScaleSetStep(pk, tk)).0,
                       Joined(factors, ScaleAll(sess.params, sets[i..], ScaleSetStep(pk, tk)).1))
    modifies sess
    ensures sess.ops == old(sess.ops)
    ensures ShapesValid(sess.params) && sess.params.Keys == old(sess.params).Keys
    ensures f.Err? ==> whole == (sess.params, Err(f.error))
    ensures f.Ok? ==>
      AllStored(sess.params, sets[i + 1..]) &&
      whole == (ScaleAll(sess.params, sets[i + 1..], ScaleSetStep(pk, tk)).0,
                Joined(factors + [f.value], ScaleAll(sess.params, sets[i + 1..], ScaleSetStep(pk, tk)).1))
  {
    var step := ScaleSetStep(pk, tk);
    ghost var before := sess.params;
    StepApplied(pk, tk, before, sets[i]);
    f := ScaleClsSet(sess, sets[i], pk, tk);
    ScaleAllUnfold(before, sets[i..], step);
    assert sets[i..][0] == sets[i] && sets[i..][1..] == sets[i + 1..];
    if f.Ok? {
      JoinedAssoc(factors, f.value, ScaleAll(sess.params, sets[i + 1..], step).1);
    }
  }

  /** `scale_cls_sets`: one `scale_cls_set` per set in order; an error
      propagates with the sets before it already scaled. */
  method ScaleClsSets(sess: Session, sets: seq<ClsSet>, pk: PairKernel, tk: TripletKernel)
    returns (r: Result<seq<ScaleFactor>>)
    requires ShapesValid(sess.params) && AllStored(sess.params, sets)
    modifies sess
    ensures sess.ops == old(sess.ops)
    ensures StepDefined(ScaleSetStep(pk, tk))
    ensures (sess.params, r) == ScaleAll(old(sess.params), sets, ScaleSetStep(pk, tk))
  {
    ScaleSetStepDefined(pk, tk);
    var step := ScaleSetStep(pk, tk);
    ghost var start := sess.params;
    ghost var whole := ScaleAll(start, sets, step);
    var factors: seq<ScaleFactor> := [];
    assert sets[0..] == sets;
    JoinedEmpty(whole.1);
    for i := 0 to |sets|
      invariant sess.ops == old(sess.ops)
      invariant ShapesValid(sess.params) && sess.params.Keys == start.Keys
      invariant AllStored(sess.params, sets[i..])
      invariant whole ==
        (ScaleAll(sess.params, sets[i..], step).0, Joined(factors, ScaleAll(sess.params, sets[i..], step).1))
    {
      var f := ScaleNext(sess, sets, i, pk, tk, factors, whole);
      if f.Err? {
        return Err(f.error);
      }
      factors := factors + [f.value];
    }
    assert sets[|sets|..] == [] && factors + [] == factors;
    r := Ok(factors);
  }

  /** A pair kernel that leaves its structs as they are. */
  ghost predicate IdentityPairKernel(pk: PairKernel)
  {
    forall x, y ::
      pk(x, y).prev.weight == x.weight && pk(x, y).curr.weight == y.weight &&
      (x.bias.Some? ==> pk(x, y).prev.bias == x.bias.value)
  }

  ghost predicate IdentityTripletKernel(tk: TripletKernel)
  {
    forall x, y, z ::
      tk(x, y, z).prev.weight == x.weight && tk(x, y, z).curr.weight == y.weight &&
      tk(x, y, z).next.weight == z.weight &&
      (x.bias.Some? ==> tk(x, y, z).prev.bias == x.bias.value) &&
      (y.bias.Some? ==> tk(x, y, z).curr.bias == y.bias.value)
  }

  /** Every stored weight has its recorded shape. */
  ghost predicate WeightsShaped(params: ParamStore)
  {
    forall id | id in params :: HasShape(params[id].weight, params[id].shape)
  }

  /** Writing back, in TensorFlow layout, the kernel-layout weight that was
      read gives a convolution back unchanged. */
  lemma ConvWriteBack(params: ParamStore, id: OpId, withBias: bool)
    requires ShapesValid(params) && id in params && HasShape(params[id].weight, params[id].shape)
    ensures var k := ReadConv(params[id], withBias);
            WriteConv(params, id, k.weight, k.weightShape) == params
  {
    var p := params[id];
    ConvLayoutRoundTrip(p.weight, p.shape);
    var k := ReadConv(p, withBias);
    assert p.(weight := Transpose(k.weight, k.weightShape, FromKernelLayout),
              shape := Permute(FromKernelLayout, k.weightShape)) == p;
  }

  /** The same for a depthwise layer and its self-inverse layout. */
  lemma DepthwiseWriteBack(params: ParamStore, id: OpId)
    requires ShapesValid(params) && id in params && HasShape(params[id].weight, params[id].shape)
    ensures var k := ReadDepthwise(params[id]);
            WriteDepthwise(params, id, k.weight, k.weightShape) == params
  {
    var p := params[id];
    DepthwiseLayoutRoundTrip(p.weight, p.shape);
    var k := ReadDepthwise(p);
    assert p.(weight := Transpose(k.weight, k.weightShape, DepthwiseLayout),
              shape := Permute(DepthwiseLayout, k.weightShape)) == p;
  }

  /** Reading a convolution back after writing a kernel-layout weight gives
      that weight and its shape: the write is the read's inverse. */
  lemma WriteConvReadBack(params: ParamStore, id: OpId, w: Tensor4, ks: Shape, withBias: bool)
    requires ShapesValid(params) && id in params && |ks| == 4 && HasShape(w, ks)
    ensures var k := ReadConv(WriteConv(params, id, w, ks)[id], withBias);
            k.weight == w && k.weightShape == ks
  {
    assert Inverse(FromKernelLayout) == ToKernelLayout;
    TransposeRoundTrip(w, ks, FromKernelLayout);
  }

  /** The same for a depthwise layer. */
  lemma WriteDepthwiseReadBack(params: ParamStore, id: OpId, w: Tensor4, ks: Shape)
    requires ShapesValid(params) && id in params && |ks| == 4 && HasShape(w, ks)
    ensures var k := ReadDepthwise(WriteDepthwise(params, id, w, ks)[id]);
            k.weight == w && k.weightShape == ks && k.bias == params[id].bias
  {
    assert Inverse(DepthwiseLayout) == DepthwiseLayout;
    TransposeRoundTrip(w, ks, DepthwiseLayout);
  }

  /** The layout conversions are exact: with a kernel that changes nothing,
      scaling a pair leaves the store as it was. */
  lemma ScalePairIdentity(params: ParamStore, a: Op, b: Op, pk: PairKernel)
    requires ShapesValid(params) && WeightsShaped(params) && a.id in params && b.id in params
    requires IdentityPairKernel(pk)
    ensures ScalePair(params, a, b, pk).0 == params
  {
    ConvWriteBack(params, a.id, true);
    ConvWriteBack(params, b.id, false);
  }

  lemma ScaleTripletIdentity(params: ParamStore, a: Op, b: Op, c: Op, tk: TripletKernel)
    requires ShapesValid(params) && WeightsShaped(params) && a.id in params && b.id in params && c.id in params
    requires IdentityTripletKernel(tk)
    ensures ScaleTriplet(params, a, b, c, tk).0 == params
  {
    ConvWriteBack(params, a.id, true);
    DepthwiseWriteBack(params, b.id);
    ConvWriteBack(params, c.id, false);
  }

  /** A step that leaves every store with well-shaped weights as it was. */
  ghost predicate StepKeepsShapedStore(step: SetStep)
    requires StepDefined(step)
  {
    forall p: ParamStore, c: ClsSet | ShapesValid(p) && WeightsShaped(p) && Stored(p, c) :: step(p, c).0 == p
  }

  /** With a step that changes nothing, the walk changes nothing. */
  lemma {:induction false} ScaleAllUnchanged(params: ParamStore, sets: seq<ClsSet>, step: SetStep)
    requires StepDefined(step) && StepKeepsShapedStore(step)
    requires ShapesValid(params) && WeightsShaped(params) && AllStored(params, sets)
    ensures ScaleAll(params, sets, step).0 == params
    decreases |sets|
  {
    if sets != [] {
      var first := step(params, sets[0]);
      if first.1.Ok? {
        StoredTail(params, first.0, sets);
        ScaleAllUnchanged(first.0, sets[1..], step);
      }
    }
  }

  /** With kernels that change nothing, scaling a set changes nothing. */
  lemma IdentityKernelsKeepStore(pk: PairKernel, tk: TripletKernel)
    requires IdentityPairKernel(pk) && IdentityTripletKernel(tk)
    ensures StepDefined(ScaleSetStep(pk, tk)) && StepKeepsShapedStore(ScaleSetStep(pk, tk))
  {
    ScaleSetStepProperties(pk, tk);
    forall p: ParamStore, c: ClsSet | ShapesValid(p) && WeightsShaped(p) && Stored(p, c)
      ensures ScaleSet(p, c, pk, tk).0 == p
    {
      if c.Triplet? {
        ScaleTripletIdentity(p, c.first, c.second, c.third, tk);
      } else {
        ScalePairIdentity(p, c.first, c.second, pk);
      }
    }
  }

  /** With kernels that change nothing, scaling all sets leaves the store as
      it was: the layout conversions of every set are exact. */
  lemma ScaleAllIdentity(params: ParamStore, sets: seq<ClsSet>, pk: PairKernel, tk: TripletKernel)
    requires ShapesValid(params) && WeightsShaped(params) && AllStored(params, sets)
    requires IdentityPairKernel(pk) && IdentityTripletKernel(tk)
    ensures StepDefined(ScaleSetStep(pk, tk))
    ensures ScaleAll(params, sets, ScaleSetStep(pk, tk)).0 == params
  {
    IdentityKernelsKeepStore(pk, tk);
    ScaleAllUnchanged(params, sets, ScaleSetStep(pk, tk));
  }
}
