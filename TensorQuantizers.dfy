/** The tensor quantizer the PyTorch wrappers drive, and what the wrappers
    do with it: the activation pass over inputs or outputs, and the
    parameter pass.

    A quantizer is a value owned by its wrapper. The native kernels behind
    it (encoding analysis from the statistics, and quantize-dequantize of a
    tensor under an encoding) are uninterpreted functions passed in. */
module TensorQuantizers {
  import opened Wrappers

  /** An abstract tensor: whether its dtype is integral, and its elements. */
  datatype Tensor = Tensor(integral: bool, elements: seq<real>)

  /** A value passed to or returned by a module: a tensor or anything else. */
  datatype Value = TensorValue(tensor: Tensor) | NonTensor

  /** What a forward pass returns: one value, or a list/tuple of values. */
  datatype Output = One(value: Value) | Several(values: seq<Value>)

  datatype RoundMode = Nearest | Stochastic

  /** The libpymo quantization modes the quantizer factory accepts. */
  datatype PymoScheme = QuantizationTfEnhanced | QuantizationTf

  /** `QcQuantizeOpMode`. */
  datatype Mode = Passthrough | Analysis | Active

  datatype Encoding = Encoding(min: real, max: real, bitwidth: nat)

  /** The native encoding analysis: statistics, bit-width, symmetric flag. */
  type EncodingFn = (seq<Tensor>, nat, bool) -> Option<Encoding>

  /** The native quantize-dequantize: tensor, encoding, bit-width, rounding. */
  type QdFn = (Tensor, Option<Encoding>, nat, RoundMode) -> Tensor

  /** A post-training tensor quantizer: whether it is enabled, its round
      mode, bit-width, libpymo scheme and symmetric flag, the statistics it
      has collected, its encoding and whether that encoding is frozen. */
  datatype TensorQuantizer = TensorQuantizer(
    enabled: bool,
    roundMode: RoundMode,
    bitwidth: nat,
    quantScheme: PymoScheme,
    useSymmetricEncodings: bool,
    stats: seq<Tensor>,
    encoding: Option<Encoding>,
    frozen: bool)

  /** `tensor_quantizer_factory`: a quantizer without statistics or
      encoding. */
  function NewQuantizer(bitwidth: nat, roundMode: RoundMode, quantScheme: PymoScheme,
                        useSymmetricEncodings: bool, enabledByDefault: bool): TensorQuantizer
  {
    TensorQuantizer(enabledByDefault, roundMode, bitwidth, quantScheme, useSymmetricEncodings, [], None, false)
  }

  /** `reset_encoding_stats`: drops the statistics and the encoding. */
  function ResetEncodingStats(q: TensorQuantizer): TensorQuantizer
  {
    q.(stats := [], encoding := None)
  }

  /** `compute_encoding`: analyses the statistics into an encoding. */
  function ComputeEncoding(q: TensorQuantizer, encodingFn: EncodingFn): TensorQuantizer
  {
    q.(encoding := encodingFn(q.stats, q.bitwidth, q.useSymmetricEncodings))
  }

  /** Outside training only nearest rounding is used; in training the
      quantizer's own round mode is. */
  function RoundFor(training: bool, configured: RoundMode): RoundMode
  {
    if training then configured else Nearest
  }

  /** `MAP_ROUND_MODE_TO_PYMO`: a name outside the map is a KeyError. */
  function RoundModeNamed(name: string): (r: Result<RoundMode>)
    ensures r.Ok? <==> name in ["nearest", "stochastic"]
    ensures r.Err? ==> r.error == KeyError
    ensures r == Ok(Nearest) <==> name == "nearest"
  {
    if name == "nearest" then Ok(Nearest)
    else if name == "stochastic" then Ok(Stochastic)
    else Err(KeyError)
  }

  /** `QuantScheme` values the user may pass. */
  datatype QuantScheme = PostTrainingTfEnhanced | PostTrainingTf | TrainingRangeLearning

  /** `MAP_QUANT_SCHEME_TO_PYMO`: only the two post-training schemes map. */
  function PymoSchemeOf(s: QuantScheme): (r: Result<PymoScheme>)
    ensures r.Ok? <==> s != TrainingRangeLearning
    ensures r.Err? ==> r.error == KeyError
    ensures s == PostTrainingTf ==> r == Ok(QuantizationTf)
    ensures s == PostTrainingTfEnhanced ==> r == Ok(QuantizationTfEnhanced)
  {
    match s
    case PostTrainingTfEnhanced => Ok(QuantizationTfEnhanced)
    case PostTrainingTf => Ok(QuantizationTf)
    case TrainingRangeLearning => Err(KeyError)
  }

  // ---------------------------------------------------------------------
  // Activation quantization of the post-training wrapper

  /** The index of the first value that is not a tensor, or `|vs|`. */
  function Handled(vs: seq<Value>): (n: nat)
    ensures n <= |vs|
    ensures forall k | 0 <= k < n :: vs[k].TensorValue?
    ensures n < |vs| ==> vs[n].NonTensor?
  {
    if vs == [] || vs[0].NonTensor? then 0 else 1 + Handled(vs[1..])
  }

  lemma HandledAt(vs: seq<Value>, i: nat)
    requires i <= |vs| && forall k | 0 <= k < i :: vs[k].TensorValue?
    requires i == |vs| || vs[i].NonTensor?
    ensures Handled(vs) == i
  {
  }

  /** What the wrapper makes of one tensor: integral tensors and every
      tensor outside ACTIVE mode are returned as they are; in ACTIVE mode a
      floating tensor is quantize-dequantized under the quantizer's encoding
      and bit-width. */
  function QuantizeTensor(q: TensorQuantizer, qd: QdFn, mode: Mode, training: bool, t: Tensor): Tensor
  {
    if !t.integral && mode == Active then qd(t, q.encoding, q.bitwidth, RoundFor(training, q.roundMode))
    else t
  }

  /** The outputs of `_quantize_activation` before unwrapping: an
      AssertionError when any input is not a tensor, else each input
      through `QuantizeTensor`, in input order. */
  function Activations(q: TensorQuantizer, qd: QdFn, mode: Mode, training: bool, vs: seq<Value>): Result<seq<Value>>
  {
    if Handled(vs) < |vs| then Err(AssertionError) else Ok(QuantizeValues(q, qd, mode, training, vs))
  }

  /** A value through `QuantizeTensor`; a non-tensor stays as it is. */
  function QuantizeValue(q: TensorQuantizer, qd: QdFn, mode: Mode, training: bool, v: Value): Value
  {
    if v.TensorValue? then TensorValue(QuantizeTensor(q, qd, mode, training, v.tensor)) else v
  }

  /** Every value through `QuantizeValue`, in order. */
  function QuantizeValues(q: TensorQuantizer, qd: QdFn, mode: Mode, training: bool, vs: seq<Value>): seq<Value>
  {
    if vs == [] then []
    else QuantizeValues(q, qd, mode, training, vs[..|vs| - 1]) + [QuantizeValue(q, qd, mode, training, vs[|vs| - 1])]
  }

  /** `QuantizeValues` is `QuantizeValue` applied element-wise. */
  lemma {:induction false} QuantizeValuesPointwise(q: TensorQuantizer, qd: QdFn, mode: Mode, training: bool, vs: seq<Value>)
    ensures |QuantizeValues(q, qd, mode, training, vs)| == |vs|
    ensures forall k | 0 <= k < |vs| :: QuantizeValues(q, qd, mode, training, vs)[k] == QuantizeValue(q, qd, mode, training, vs[k])
  {
    if vs != [] {
      var n := |vs| - 1;
      QuantizeValuesPointwise(q, qd, mode, training, vs[..n]);
      forall k | 0 <= k < n
        ensures QuantizeValues(q, qd, mode, training, vs)[k] == QuantizeValue(q, qd, mode, training, vs[k])
      {
        assert vs[..n][k] == vs[k];
      }
    }
  }

  /** The floating tensors of `vs`, in order. */
  function FloatTensors(vs: seq<Value>): seq<Tensor>
  {
    if vs == [] then []
    else
      var last := vs[|vs| - 1];
      FloatTensors(vs[..|vs| - 1]) + (if last.TensorValue? && !last.tensor.integral then [last.tensor] else [])
  }

  /** What `_quantize_activation` adds to the statistics: in ANALYSIS mode
      the floating tensors met before the loop stops, else nothing. */
  function Observed(mode: Mode, vs: seq<Value>): seq<Tensor>
  {
    if mode == Analysis then FloatTensors(vs[..Handled(vs)]) else []
  }

  /** A single output is unwrapped; otherwise the list is returned. */
  function Unwrapped(outs: seq<Value>): Output
  {
    if |outs| == 1 then One(outs[0]) else Several(outs)
  }

  /** `_quantize_activation` as a whole. */
  function ActivationResult(q: TensorQuantizer, qd: QdFn, mode: Mode, training: bool, vs: seq<Value>): Result<Output>
  {
    var outs := Activations(q, qd, mode, training, vs);
    if outs.Err? then Err(outs.error) else Ok(Unwrapped(outs.value))
  }

  /** Re-listing an output (`if isinstance(x, torch.Tensor): x = [x]`):
      a single non-tensor cannot be iterated. */
  function Relist(o: Output): Result<seq<Value>>
  {
    match o
    case One(v) => if v.TensorValue? then Ok([v]) else Err(TypeError)
    case Several(vs) => Ok(vs)
  }

  /** Unwrapping and re-listing a list of tensors gives the list back. */
  lemma RelistUnwrapped(outs: seq<Value>)
    requires forall k | 0 <= k < |outs| :: outs[k].TensorValue?
    ensures Relist(Unwrapped(outs)) == Ok(outs)
  {
    if |outs| == 1 {
      assert [outs[0]] == outs;
    }
  }

  /** The activation pass fails exactly when some input is not a tensor,
      and then with an AssertionError. */
  lemma ActivationsFail(q: TensorQuantizer, qd: QdFn, mode: Mode, training: bool, vs: seq<Value>)
    ensures Activations(q, qd, mode, training, vs).Err? <==> exists k :: 0 <= k < |vs| && vs[k].NonTensor?
    ensures Activations(q, qd, mode, training, vs).Err? ==>
      Activations(q, qd, mode, training, vs).error == AssertionError
  {
    if Handled(vs) < |vs| {
      assert vs[Handled(vs)].NonTensor?;
    }
  }

  /** Outside ACTIVE mode, and for integral tensors in every mode, the
      outputs are the inputs. */
  lemma ActivationsPassThrough(q: TensorQuantizer, qd: QdFn, mode: Mode, training: bool, vs: seq<Value>)
    requires Activations(q, qd, mode, training, vs).Ok?
    ensures |Activations(q, qd, mode, training, vs).value| == |vs|
    ensures forall k | 0 <= k < |vs| && (mode != Active || vs[k].tensor.integral) ::
      Activations(q, qd, mode, training, vs).value[k] == vs[k]
    ensures mode != Active ==> Activations(q, qd, mode, training, vs).value == vs
  {
    QuantizeValuesPointwise(q, qd, mode, training, vs);
    var outs := Activations(q, qd, mode, training, vs).value;
    forall k | 0 <= k < |vs| && (mode != Active || vs[k].tensor.integral)
      ensures outs[k] == vs[k]
    {
      assert vs[k].TensorValue?;
    }
  }

  /** In ACTIVE mode a floating input comes back quantize-dequantized, with
      nearest rounding unless training. */
  lemma ActivationsActive(q: TensorQuantizer, qd: QdFn, training: bool, vs: seq<Value>, k: nat)
    requires Activations(q, qd, Active, training, vs).Ok?
    requires k < |vs| && !vs[k].tensor.integral
    ensures |Activations(q, qd, Active, training, vs).value| == |vs|
    ensures Activations(q, qd, Active, training, vs).value[k] ==
      TensorValue(qd(vs[k].tensor, q.encoding, q.bitwidth, if training then q.roundMode else Nearest))
  {
    QuantizeValuesPointwise(q, qd, Active, training, vs);
  }

  /** Statistics are collected only in ANALYSIS mode, and only floating
      tensors are collected. */
  lemma ObservedOnlyInAnalysis(mode: Mode, vs: seq<Value>)
    ensures mode != Analysis ==> Observed(mode, vs) == []
    ensures forall t | t in Observed(mode, vs) :: !t.integral && TensorValue(t) in vs
  {
    var pre := vs[..Handled(vs)];
    FloatTensorsSound(pre);
    forall t | t in Observed(mode, vs)
      ensures TensorValue(t) in vs
    {
      var j :| 0 <= j < |pre| && pre[j] == TensorValue(t);
      assert vs[j] == TensorValue(t);
    }
  }

  lemma {:induction false} FloatTensorsSound(vs: seq<Value>)
    ensures forall t | t in FloatTensors(vs) :: !t.integral && TensorValue(t) in vs
  {
    if vs != [] {
      var n := |vs| - 1;
      FloatTensorsSound(vs[..n]);
      forall t | t in FloatTensors(vs[..n])
        ensures TensorValue(t) in vs
      {
        var j :| 0 <= j < n && vs[..n][j] == TensorValue(t);
        assert vs[j] == TensorValue(t);
      }
    }
  }

  /** In ANALYSIS mode over tensors only, every floating input is collected,
      in input order. */
  lemma {:induction false} ObservedAllFloats(vs: seq<Value>)
    requires forall k | 0 <= k < |vs| :: vs[k].TensorValue?
    ensures Observed(Analysis, vs) == FloatTensors(vs)
    ensures forall k | 0 <= k < |vs| && !vs[k].tensor.integral :: vs[k].tensor in Observed(Analysis, vs)
  {
    HandledAt(vs, |vs|);
    assert vs[..|vs|] == vs;
    FloatTensorsComplete(vs);
  }

  lemma {:induction false} FloatTensorsComplete(vs: seq<Value>)
    ensures forall k | 0 <= k < |vs| && vs[k].TensorValue? && !vs[k].tensor.integral :: vs[k].tensor in FloatTensors(vs)
  {
    if vs != [] {
      var n := |vs| - 1;
      FloatTensorsComplete(vs[..n]);
      forall k | 0 <= k < n && vs[k].TensorValue? && !vs[k].tensor.integral
        ensures vs[k].tensor in FloatTensors(vs)
      {
        assert vs[..n][k] == vs[k];
      }
    }
  }

  /** Over tensors only, the activation pass succeeds and collects the
      floating tensors in ANALYSIS mode. */
  lemma ActivationsOfTensors(q: TensorQuantizer, qd: QdFn, mode: Mode, training: bool, vs: seq<Value>)
    requires forall k | 0 <= k < |vs| :: vs[k].TensorValue?
    ensures Activations(q, qd, mode, training, vs) == Ok(QuantizeValues(q, qd, mode, training, vs))
    ensures Observed(mode, vs) == if mode == Analysis then FloatTensors(vs) else []
  {
    HandledAt(vs, |vs|);
    assert vs[..|vs|] == vs;
  }

  // ---------------------------------------------------------------------
  // The standalone op's activation pass (the base-class routine)

  /** One tensor through the base routine, which does not look at the
      dtype: in ACTIVE mode every tensor is quantize-dequantized. */
  function StandaloneQuantize(q: TensorQuantizer, qd: QdFn, mode: Mode, training: bool, t: Tensor): Tensor
  {
    if mode == Active then qd(t, q.encoding, q.bitwidth, RoundFor(training, q.roundMode)) else t
  }

  function StandaloneOutputs(q: TensorQuantizer, qd: QdFn, mode: Mode, training: bool, ts: seq<Tensor>): (outs: seq<Value>)
    ensures |outs| == |ts|
    ensures forall k | 0 <= k < |ts| :: outs[k] == TensorValue(StandaloneQuantize(q, qd, mode, training, ts[k]))
  {
    seq(|ts|, k requires 0 <= k < |ts| => TensorValue(StandaloneQuantize(q, qd, mode, training, ts[k])))
  }

  /** Outside ACTIVE mode the standalone op returns its inputs. */
  lemma StandaloneIdentity(q: TensorQuantizer, qd: QdFn, mode: Mode, training: bool, ts: seq<Tensor>)
    requires mode != Active
    ensures StandaloneOutputs(q, qd, mode, training, ts) == seq(|ts|, k requires 0 <= k < |ts| => TensorValue(ts[k]))
  {
  }

  // ---------------------------------------------------------------------
  // Parameter quantization of the post-training wrapper

  /** A parameter's quantizer state and data after `_quantize_dequantize_params`. */
  datatype ParamOutcome = ParamOutcome(quantizer: TensorQuantizer, data: Tensor)

  /** One parameter: untouched in PASSTHROUGH mode or with its quantizer
      disabled; otherwise the encoding is recomputed from the parameter
      alone when the wrapped module is training or there is no encoding
      yet, and the data is replaced by its quantize-dequantized value,
      rounded to nearest unless the wrapper is training. */
  function ParamStep(q: TensorQuantizer, data: Tensor, mode: Mode, moduleTraining: bool, wrapperTraining: bool,
                     encodingFn: EncodingFn, qd: QdFn): ParamOutcome
  {
    if mode == Passthrough || !q.enabled then ParamOutcome(q, data)
    else
      var q' := if moduleTraining || q.encoding.None?
                then q.(stats := [data], encoding := encodingFn([data], q.bitwidth, q.useSymmetricEncodings))
                else q;
      ParamOutcome(q', qd(data, q'.encoding, q'.bitwidth, RoundFor(wrapperTraining, q'.roundMode)))
  }

  /** A parameter step changes nothing in PASSTHROUGH mode or with a
      disabled quantizer; otherwise only the statistics, the encoding and
      the data can change, and the encoding is kept unless recomputed. */
  lemma ParamStepProperties(q: TensorQuantizer, data: Tensor, mode: Mode, moduleTraining: bool, wrapperTraining: bool,
                            encodingFn: EncodingFn, qd: QdFn)
    ensures mode == Passthrough || !q.enabled ==>
      ParamStep(q, data, mode, moduleTraining, wrapperTraining, encodingFn, qd) == ParamOutcome(q, data)
    ensures ParamStep(q, data, mode, moduleTraining, wrapperTraining, encodingFn, qd).quantizer ==
      q.(stats := ParamStep(q, data, mode, moduleTraining, wrapperTraining, encodingFn, qd).quantizer.stats,
         encoding := ParamStep(q, data, mode, moduleTraining, wrapperTraining, encodingFn, qd).quantizer.encoding)
    ensures !moduleTraining && q.encoding.Some? ==>
      ParamStep(q, data, mode, moduleTraining, wrapperTraining, encodingFn, qd).quantizer == q
    ensures q.encoding.None? ==>
      ParamStep(q, data, mode, moduleTraining, wrapperTraining, encodingFn, qd).quantizer.encoding ==
        (if mode == Passthrough || !q.enabled then None else encodingFn([data], q.bitwidth, q.useSymmetricEncodings))
  {
  }

  /** The quantizer states after the parameter pass, by parameter name. */
  function ParamQuantizersAfter(states: map<string, TensorQuantizer>, params: map<string, Tensor>, mode: Mode,
                                moduleTraining: bool, wrapperTraining: bool, encodingFn: EncodingFn, qd: QdFn)
    : (r: map<string, TensorQuantizer>)
    requires states.Keys <= params.Keys
    ensures r.Keys == states.Keys
  {
    map n | n in states :: ParamStep(states[n], params[n], mode, moduleTraining, wrapperTraining, encodingFn, qd).quantizer
  }

  /** The parameter data the wrapped module sees during the forward pass. */
  function QuantizedParams(states: map<string, TensorQuantizer>, params: map<string, Tensor>, mode: Mode,
                           moduleTraining: bool, wrapperTraining: bool, encodingFn: EncodingFn, qd: QdFn)
    : (r: map<string, Tensor>)
    requires states.Keys <= params.Keys
    ensures r.Keys == states.Keys
  {
    map n | n in states :: ParamStep(states[n], params[n], mode, moduleTraining, wrapperTraining, encodingFn, qd).data
  }

  /** In PASSTHROUGH mode the module sees its own parameters and no
      quantizer changes. */
  lemma PassthroughParams(states: map<string, TensorQuantizer>, params: map<string, Tensor>,
                          moduleTraining: bool, wrapperTraining: bool, encodingFn: EncodingFn, qd: QdFn)
    requires states.Keys == params.Keys
    ensures QuantizedParams(states, params, Passthrough, moduleTraining, wrapperTraining, encodingFn, qd) == params
    ensures ParamQuantizersAfter(states, params, Passthrough, moduleTraining, wrapperTraining, encodingFn, qd) == states
  {
  }

  // ---------------------------------------------------------------------
  // The loops that drive a quantizer

  /** The loop of `_quantize_activation`: an integral tensor is returned as
      it is; ANALYSIS adds a floating tensor to the statistics and returns
      it; ACTIVE returns its quantize-dequantized value; PASSTHROUGH returns
      it; the first non-tensor raises AssertionError, keeping the
      statistics added before it. */
  method QuantizeEach(q: TensorQuantizer, qd: QdFn, mode: Mode, training: bool, vs: seq<Value>)
    returns (q': TensorQuantizer, r: Result<seq<Value>>)
    ensures r == Activations(q, qd, mode, training, vs)
    ensures q' == q.(stats := q.stats + Observed(mode, vs))
  {
    q' := q;
    var outs: seq<Value> := [];
    for i := 0 to |vs|
      invariant forall k | 0 <= k < i :: vs[k].TensorValue?
      invariant outs == QuantizeValues(q, qd, mode, training, vs[..i])
      invariant q' == q.(stats := q.stats + if mode == Analysis then FloatTensors(vs[..i]) else [])
    {
      assert vs[..i + 1][..i] == vs[..i];
      if vs[i].NonTensor? {
        HandledAt(vs, i);
        return q', Err(AssertionError);
      }
      var t := vs[i].tensor;
      var output := t;
      if !t.integral {
        if mode == Analysis {
          assert q.stats + (FloatTensors(vs[..i]) + [t]) == (q.stats + FloatTensors(vs[..i])) + [t];
          q' := q'.(stats := q'.stats + [t]);
        } else if mode == Active {
          var round := if training then q'.roundMode else Nearest;
          output := qd(t, q'.encoding, q'.bitwidth, round);
        }
      }
      outs := outs + [TensorValue(output)];
    }
    ActivationsOfTensors(q, qd, mode, training, vs);
    assert vs[..|vs|] == vs;
    return q', Ok(outs);
  }

  /** The body of the loop of `_quantize_dequantize_params` for one
      parameter: outside PASSTHROUGH mode and with the quantizer enabled,
      the statistics are reset to the parameter alone and analysed when the
      module trains or there is no encoding yet, and the data is replaced
      by its quantize-dequantized value. */
  method QuantizeParamData(q: TensorQuantizer, data: Tensor, mode: Mode, moduleTraining: bool, wrapperTraining: bool,
                           encodingFn: EncodingFn, qd: QdFn)
    returns (q': TensorQuantizer, data': Tensor)
    ensures ParamOutcome(q', data') == ParamStep(q, data, mode, moduleTraining, wrapperTraining, encodingFn, qd)
  {
    q', data' := q, data;
    if mode != Passthrough && q.enabled {
      if moduleTraining || q.encoding.None? {
        q' := ResetEncodingStats(q');
        q' := q'.(stats := q'.stats + [data]);
        assert q'.stats == [data];
        q' := ComputeEncoding(q', encodingFn);
      }
      var round := if wrapperTraining then q'.roundMode else Nearest;
      data' := qd(data, q'.encoding, q'.bitwidth, round);
    }
  }

  /** The loop of the base `_quantize_activation`: every input is added to
      the statistics in ANALYSIS mode and quantize-dequantized in ACTIVE
      mode. */
  method StandaloneEach(q: TensorQuantizer, qd: QdFn, mode: Mode, training: bool, ts: seq<Tensor>)
    returns (q': TensorQuantizer, outs: seq<Value>)
    ensures outs == StandaloneOutputs(q, qd, mode, training, ts)
    ensures q' == q.(stats := q.stats + if mode == Analysis then ts else [])
  {
    q' := q;
    outs := [];
    for i := 0 to |ts|
      invariant |outs| == i
      invariant forall k | 0 <= k < i :: outs[k] == TensorValue(StandaloneQuantize(q, qd, mode, training, ts[k]))
      invariant q' == q.(stats := q.stats + if mode == Analysis then ts[..i] else [])
    {
      assert ts[..i + 1] == ts[..i] + [ts[i]];
      var output := ts[i];
      if mode == Analysis {
        q' := q'.(stats := q'.stats + [ts[i]]);
      } else if mode == Active {
        var round := if training then q'.roundMode else Nearest;
        output := qd(ts[i], q'.encoding, q'.bitwidth, round);
      }
      outs := outs + [TensorValue(output)];
    }
    assert ts[..|ts|] == ts;
  }
}
