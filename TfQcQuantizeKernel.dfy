/** The TensorFlow `QcQuantize` kernel: its shape function and the
    mode switch of `modeSpecificAction`, which drives the native tensor
    quantizer the op holds a reference to.

    Tensors are flat arrays of reals together with their shape. The native
    quantizer keeps the statistics it has seen; its encoding analysis and
    its element-wise quantize-dequantize are uninterpreted functions fixed
    when it is created. */
module TfQcQuantizeKernel {
  import opened Wrappers

  /** The `int8` bit-width input. */
  newtype Int8 = x: int | -128 <= x < 128

  /** `TfEncoding`: the range an encoding quantizes to. */
  datatype TfEncoding = TfEncoding(min: real, max: real, bw: Int8)

  /** `TensorQuantizerOpMode`; a value outside the enumeration is `Other`. */
  datatype OpMode = OneShotQuantizeDequantize | UpdateStats | QuantizeDequantize | PassThrough | Other(code: int)

  /** The native encoding analysis: statistics, bit-width, symmetric flag. */
  type ComputeEncodingFn = (seq<seq<real>>, Int8, bool) -> TfEncoding

  /** The native quantize-dequantize of one element: value, min, max,
      bit-width. */
  type QdElementFn = (real, real, real, Int8) -> real

  /** The element count of a tensor of the given shape. */
  function NumElements(shape: seq<nat>): nat
  {
    if shape == [] then 1 else shape[0] * NumElements(shape[1..])
  }

  /** The shape function registered for `QcQuantize`: output 0 takes the
      shape of input 0. */
  function ShapeFn(inputShapes: seq<seq<nat>>): (r: seq<nat>)
    requires |inputShapes| > 0
    ensures r == inputShapes[0]
  {
    inputShapes[0]
  }

  /** Element-wise quantize-dequantize of `xs` under one range. */
  function QuantizeDequantizeAll(qd: QdElementFn, xs: seq<real>, min: real, max: real, bw: Int8): (ys: seq<real>)
    ensures |ys| == |xs|
    ensures forall i | 0 <= i < |xs| :: ys[i] == qd(xs[i], min, max, bw)
  {
    seq(|xs|, i requires 0 <= i < |xs| => qd(xs[i], min, max, bw))
  }

  /** The native `TensorQuantizerOpFacade` an op's reference points to. */
  class TensorQuantizerOpFacade {
    var stats: seq<seq<real>>
    const computeEncodingFn: ComputeEncodingFn
    const qd: QdElementFn

    constructor (computeEncodingFn: ComputeEncodingFn, qd: QdElementFn)
      ensures stats == [] && this.computeEncodingFn == computeEncodingFn && this.qd == qd
    {
      stats := [];
      this.computeEncodingFn := computeEncodingFn;
      this.qd := qd;
    }

    /** `updateStats`: the first `count` elements join the statistics. */
    method UpdateStats(inTensor: array<real>, count: nat)
      requires count <= inTensor.Length
      modifies this
      ensures stats == old(stats) + [inTensor[..count]]
    {
      stats := stats + [inTensor[..count]];
    }

    /** `computeEncoding` from the statistics gathered so far. */
    function ComputeEncoding(bw: Int8, useSymmetricEncoding: bool): TfEncoding
      reads this
    {
      computeEncodingFn(stats, bw, useSymmetricEncoding)
    }

    /** `quantizeDequantize`: writes the quantize-dequantized input to the
        output, element by element. */
    method QuantizeDequantizeInto(inTensor: array<real>, count: nat, outTensor: array<real>,
                                  min: real, max: real, bw: Int8)
      requires count == inTensor.Length == outTensor.Length && inTensor != outTensor
      modifies outTensor
      ensures outTensor[..] == QuantizeDequantizeAll(qd, inTensor[..], min, max, bw)
    {
      forall i | 0 <= i < count {
        outTensor[i] := qd(inTensor[i], min, max, bw);
      }
    }
  }

  /** `copyInputTensorsToOutputTensors`. */
  method CopyInputToOutput(inTensor: array<real>, count: nat, outTensor: array<real>)
    requires count == inTensor.Length == outTensor.Length && inTensor != outTensor
    modifies outTensor
    ensures outTensor[..] == inTensor[..]
  {
    forall i | 0 <= i < count {
      outTensor[i] := inTensor[i];
    }
  }

  /** The output `modeSpecificAction` writes, from the input, the
      statistics before the call, and the op's inputs. */
  function OutputOf(q: TensorQuantizerOpFacade, stats: seq<seq<real>>, mode: OpMode, input: seq<real>,
                    min: real, max: real, bw: Int8, useSymmetricEncoding: bool): seq<real>
  {
    match mode
    case OneShotQuantizeDequantize =>
      var e := q.computeEncodingFn(stats + [input], bw, useSymmetricEncoding);
      QuantizeDequantizeAll(q.qd, input, e.min, e.max, bw)
    case QuantizeDequantize => QuantizeDequantizeAll(q.qd, input, min, max, bw)
    case _ => input
  }

  /** The statistics after `modeSpecificAction`: both updating modes add
      the input, the others leave them alone. */
  function StatsAfter(stats: seq<seq<real>>, mode: OpMode, input: seq<real>): seq<seq<real>>
  {
    if mode == OneShotQuantizeDequantize || mode == UpdateStats then stats + [input] else stats
  }

  /** `modeSpecificAction`. A mode outside the enumeration reaches
      `assert(0)`; the output is then not written. */
  method ModeSpecificAction(inTensor: array<real>, count: nat, outTensor: array<real>, q: TensorQuantizerOpFacade,
                            mode: OpMode, min: real, max: real, bw: Int8, useSymmetricEncoding: bool)
    returns (r: Outcome)
    requires count == inTensor.Length == outTensor.Length && inTensor != outTensor
    modifies q, outTensor
    ensures r == Fail(AssertionError) <==> mode.Other?
    ensures r != Pass ==> r == Fail(AssertionError)
    ensures q.stats == StatsAfter(old(q.stats), mode, inTensor[..])
    ensures r == Pass ==>
      outTensor[..] == OutputOf(q, old(q.stats), mode, inTensor[..], min, max, bw, useSymmetricEncoding)
    ensures r != Pass ==> outTensor[..] == old(outTensor[..])
  {
    assert inTensor[..count] == inTensor[..];
    match mode
    case OneShotQuantizeDequantize =>
      q.UpdateStats(inTensor, count);
      var initialEncoding := q.ComputeEncoding(bw, useSymmetricEncoding);
      q.QuantizeDequantizeInto(inTensor, count, outTensor, initialEncoding.min, initialEncoding.max, bw);
      r := Pass;
    case UpdateStats =>
      q.UpdateStats(inTensor, count);
      CopyInputToOutput(inTensor, count, outTensor);
      r := Pass;
    case QuantizeDequantize =>
      q.QuantizeDequantizeInto(inTensor, count, outTensor, min, max, bw);
      r := Pass;
    case PassThrough =>
      CopyInputToOutput(inTensor, count, outTensor);
      r := Pass;
    case Other(_) =>
      r := Fail(AssertionError);
  }

  /** `Compute`: allocates the output with the input's shape and runs the
      mode switch on the input's elements. */
  method Compute(inTensor: array<real>, inShape: seq<nat>, q: TensorQuantizerOpFacade, mode: OpMode,
                 min: real, max: real, bw: Int8, useSymmetricEncoding: bool)
    returns (outTensor: array<real>, outShape: seq<nat>, r: Outcome)
    requires inTensor.Length == NumElements(inShape)
    modifies q
    ensures fresh(outTensor)
    ensures outShape == inShape && outShape == ShapeFn([inShape])
    ensures outTensor.Length == inTensor.Length == NumElements(outShape)
    ensures r != Pass <==> mode.Other?
    ensures q.stats == StatsAfter(old(q.stats), mode, inTensor[..])
    ensures r == Pass ==>
      outTensor[..] == OutputOf(q, old(q.stats), mode, inTensor[..], min, max, bw, useSymmetricEncoding)
  {
    outShape := inShape;
    outTensor := new real[inTensor.Length];
    r := ModeSpecificAction(inTensor, inTensor.Length, outTensor, q, mode, min, max, bw, useSymmetricEncoding);
  }

  /** PASSTHROUGH and UPDATE-STATS return the input unchanged; only the two
      updating modes touch the statistics. */
  lemma PassingModes(q: TensorQuantizerOpFacade, stats: seq<seq<real>>, mode: OpMode, input: seq<real>,
                     min: real, max: real, bw: Int8, useSymmetricEncoding: bool)
    requires mode == PassThrough || mode == UpdateStats
    ensures OutputOf(q, stats, mode, input, min, max, bw, useSymmetricEncoding) == input
    ensures StatsAfter(stats, mode, input) == if mode == UpdateStats then stats + [input] else stats
  {
  }

  /** QUANTIZE-DEQUANTIZE ignores the statistics: with the same range, the
      output is the same whatever the quantizer has seen. */
  lemma QuantizeDequantizeIgnoresStats(q: TensorQuantizerOpFacade, s1: seq<seq<real>>, s2: seq<seq<real>>,
                                       input: seq<real>, min: real, max: real, bw: Int8, useSymmetricEncoding: bool)
    ensures OutputOf(q, s1, QuantizeDequantize, input, min, max, bw, useSymmetricEncoding) ==
            OutputOf(q, s2, QuantizeDequantize, input, min, max, bw, useSymmetricEncoding)
    ensures StatsAfter(s1, QuantizeDequantize, input) == s1
  {
  }

  /** ONE-SHOT is UPDATE-STATS followed by QUANTIZE-DEQUANTIZE under the
      encoding computed from the updated statistics. */
  lemma OneShotComposes(q: TensorQuantizerOpFacade, stats: seq<seq<real>>, input: seq<real>,
                        min: real, max: real, bw: Int8, useSymmetricEncoding: bool)
    ensures var updated := StatsAfter(stats, UpdateStats, input);
      var e := q.computeEncodingFn(updated, bw, useSymmetricEncoding);
      StatsAfter(stats, OneShotQuantizeDequantize, input) == updated &&
      OutputOf(q, stats, OneShotQuantizeDequantize, input, min, max, bw, useSymmetricEncoding) ==
        OutputOf(q, updated, QuantizeDequantize, input, e.min, e.max, bw, useSymmetricEncoding)
  {
  }
}
