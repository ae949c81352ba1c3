/** The conv/batchnorm pattern handler shared by bias correction and
    batchnorm fold (`ConvBnInfoType` and `ConvBnPatternHandler`). Each call
    receives a matched subset of two or three ops, finds the conv or linear
    op, the batchnorm op and the activation among them, and records on the
    conv's module whether the batchnorm and activation come before or after
    it. Records are objects: a record already held for the module is
    fetched and updated in place, so fields from earlier matches survive. */
module BiasCorrection {
  import opened Wrappers
  import opened Graph

  /** `ActivationType` as far as the handler uses it. */
  datatype ActivationType = NoActivation | Relu | Relu6

  /** `ConvBnInfoType`: the batchnorms and activations around a layer. */
  class ConvBnInfo {
    var inputBn: Option<Op>
    var outputBn: Option<Op>
    var inActivation: ActivationType
    var outActivation: ActivationType

    constructor (inputBn: Option<Op>, outputBn: Option<Op>,
                 inActivation: ActivationType, outActivation: ActivationType)
      ensures this.inputBn == inputBn && this.outputBn == outputBn
      ensures this.inActivation == inActivation && this.outActivation == outActivation
    {
      this.inputBn := inputBn;
      this.outputBn := outputBn;
      this.inActivation := inActivation;
      this.outActivation := outActivation;
    }
  }

  /** The four fields of a record, as a value. */
  datatype Fields = Fields(inputBn: Option<Op>, outputBn: Option<Op>,
                           inActivation: ActivationType, outActivation: ActivationType)

  function FieldsOf(info: ConvBnInfo): Fields
    reads info
  {
    Fields(info.inputBn, info.outputBn, info.inActivation, info.outActivation)
  }

  /** The fields of a record built with the constructor's defaults. */
  const Default := Fields(None, None, NoActivation, NoActivation)

  /** How the handler classifies an op's type. */
  datatype OpKind = ConvLinearOp | BatchNormOp | ActivationOp(activation: ActivationType) | OtherOp

  /** The convolution and linear types, the batchnorm types, Relu6/hardtanh
      as relu6 and Relu/relu as relu, tested in the handler's order. */
  function KindOf(t: string): OpKind
  {
    if t in ["Conv2D", "DepthwiseConv2dNative", "convolution"] || t in ["Dense", "addmm", "matmul"] then ConvLinearOp
    else if t in ["FusedBatchNormV3", "batch_norm"] then BatchNormOp
    else if t in ["Relu6", "hardtanh"] then ActivationOp(Relu6)
    else if t in ["Relu", "relu"] then ActivationOp(Relu)
    else OtherOp
  }

  /** Each type list maps to its kind, and no type maps to the absence of
      an activation. */
  lemma KindOfTypes(t: string)
    ensures KindOf(t) == ConvLinearOp <==>
      t in ["Conv2D", "DepthwiseConv2dNative", "convolution"] || t in ["Dense", "addmm", "matmul"]
    ensures KindOf(t) == BatchNormOp <==> t in ["FusedBatchNormV3", "batch_norm"]
    ensures KindOf(t) == ActivationOp(Relu6) <==> t in ["Relu6", "hardtanh"]
    ensures KindOf(t) == ActivationOp(Relu) <==> t in ["Relu", "relu"]
    ensures KindOf(t) != ActivationOp(NoActivation)
  {
  }

  predicate IsConvLinear(op: Op)
  {
    KindOf(op.opType) == ConvLinearOp
  }

  predicate IsBatchNorm(op: Op)
  {
    KindOf(op.opType) == BatchNormOp
  }

  predicate IsActivation(op: Op)
  {
    KindOf(op.opType).ActivationOp?
  }

  /** What the scan of a subset has found so far: the latest conv/linear op,
      the latest batchnorm op, the latest activation, and the record of the
      latest conv/linear op whose module already had one. */
  datatype Scan = Scan(conv: Option<Op>, bn: Option<Op>, activation: ActivationType, info: Option<ConvBnInfo>)

  /** One iteration of the scan loop. */
  function ScanStep(dict: map<Option<ModuleId>, ConvBnInfo>, s: Scan, op: Op): Scan
  {
    var kind := KindOf(op.opType);
    if kind == ConvLinearOp then
      s.(conv := Some(op), info := if op.moduleId in dict then Some(dict[op.moduleId]) else s.info)
    else if kind == BatchNormOp then s.(bn := Some(op))
    else if kind.ActivationOp? then s.(activation := kind.activation)
    else s
  }

  /** The scan loop over a whole subset. */
  function ScanOf(dict: map<Option<ModuleId>, ConvBnInfo>, ops: seq<Op>): Scan
    decreases |ops|
  {
    if ops == [] then Scan(None, None, NoActivation, None)
    else ScanStep(dict, ScanOf(dict, ops[..|ops| - 1]), ops[|ops| - 1])
  }

  /** There is no conv exactly when the subset has no conv/linear op. */
  lemma {:induction false} ScanConvNone(dict: map<Option<ModuleId>, ConvBnInfo>, ops: seq<Op>)
    ensures ScanOf(dict, ops).conv.None? <==> forall k | 0 <= k < |ops| :: !IsConvLinear(ops[k])
    decreases |ops|
  {
    if ops != [] {
      var front := ops[..|ops| - 1];
      assert forall k | 0 <= k < |front| :: front[k] == ops[k];
      ScanConvNone(dict, front);
    }
  }

  /** The scan's conv is the last conv/linear op of the subset. */
  lemma {:induction false} ScanConvIsLast(dict: map<Option<ModuleId>, ConvBnInfo>, ops: seq<Op>, k: nat)
    requires k < |ops| && IsConvLinear(ops[k])
    requires forall j | k < j < |ops| :: !IsConvLinear(ops[j])
    ensures ScanOf(dict, ops).conv == Some(ops[k])
    decreases |ops|
  {
    var front := ops[..|ops| - 1];
    if k < |front| {
      assert forall j | k < j < |front| :: front[j] == ops[j];
      ScanConvIsLast(dict, front, k);
    }
  }

  /** There is no batchnorm exactly when the subset has no batchnorm op. */
  lemma {:induction false} ScanBnNone(dict: map<Option<ModuleId>, ConvBnInfo>, ops: seq<Op>)
    ensures ScanOf(dict, ops).bn.None? <==> forall k | 0 <= k < |ops| :: !IsBatchNorm(ops[k])
    decreases |ops|
  {
    if ops != [] {
      var front := ops[..|ops| - 1];
      assert forall k | 0 <= k < |front| :: front[k] == ops[k];
      ScanBnNone(dict, front);
    }
  }

  /** The scan's batchnorm is the last batchnorm op of the subset. */
  lemma {:induction false} ScanBnIsLast(dict: map<Option<ModuleId>, ConvBnInfo>, ops: seq<Op>, k: nat)
    requires k < |ops| && IsBatchNorm(ops[k])
    requires forall j | k < j < |ops| :: !IsBatchNorm(ops[j])
    ensures ScanOf(dict, ops).bn == Some(ops[k])
    decreases |ops|
  {
    var front := ops[..|ops| - 1];
    if k < |front| {
      assert forall j | k < j < |front| :: front[j] == ops[j];
      ScanBnIsLast(dict, front, k);
    }
  }

  /** The activation is `NoActivation` exactly when the subset has no
      activation op. */
  lemma {:induction false} ScanActivationNone(dict: map<Option<ModuleId>, ConvBnInfo>, ops: seq<Op>)
    ensures ScanOf(dict, ops).activation == NoActivation <==> forall k | 0 <= k < |ops| :: !IsActivation(ops[k])
    decreases |ops|
  {
    if ops != [] {
      var front := ops[..|ops| - 1];
      assert forall k | 0 <= k < |front| :: front[k] == ops[k];
      ScanActivationNone(dict, front);
      KindOfTypes(ops[|ops| - 1].opType);
    }
  }

  /** The scan's activation is that of the last activation op: among
      several, the last one wins. */
  lemma {:induction false} ScanActivationIsLast(dict: map<Option<ModuleId>, ConvBnInfo>, ops: seq<Op>, k: nat)
    requires k < |ops| && IsActivation(ops[k])
    requires forall j | k < j < |ops| :: !IsActivation(ops[j])
    ensures ActivationOp(ScanOf(dict, ops).activation) == KindOf(ops[k].opType)
    decreases |ops|
  {
    var front := ops[..|ops| - 1];
    if k < |front| {
      assert forall j | k < j < |front| :: front[j] == ops[j];
      ScanActivationIsLast(dict, front, k);
    }
  }

  /** No record is fetched exactly when no conv/linear op's module has one. */
  lemma {:induction false} ScanInfoNone(dict: map<Option<ModuleId>, ConvBnInfo>, ops: seq<Op>)
    ensures ScanOf(dict, ops).info.None? <==>
      forall k | 0 <= k < |ops| :: !(IsConvLinear(ops[k]) && ops[k].moduleId in dict)
    decreases |ops|
  {
    if ops != [] {
      var front := ops[..|ops| - 1];
      assert forall k | 0 <= k < |front| :: front[k] == ops[k];
      ScanInfoNone(dict, front);
    }
  }

  /** The fetched record is that of the last conv/linear op whose module
      already has one. */
  lemma {:induction false} ScanInfoIsLast(dict: map<Option<ModuleId>, ConvBnInfo>, ops: seq<Op>, k: nat)
    requires k < |ops| && IsConvLinear(ops[k]) && ops[k].moduleId in dict
    requires forall j | k < j < |ops| :: !(IsConvLinear(ops[j]) && ops[j].moduleId in dict)
    ensures ScanOf(dict, ops).info == Some(dict[ops[k].moduleId])
    decreases |ops|
  {
    var front := ops[..|ops| - 1];
    if k < |front| {
      assert forall j | k < j < |front| :: front[j] == ops[j];
      ScanInfoIsLast(dict, front, k);
    }
  }

  /** Which side of the layer a subset describes. */
  datatype Side = InputSide | OutputSide | NeitherSide

  /** A subset starting with a batchnorm describes the input side; one
      starting with the conv/linear op, or a TensorFlow linear layer whose
      second op is the Dense, the output side. */
  function SideOf(ops: seq<Op>): Side
  {
    if |ops| < 2 then NeitherSide
    else if IsBatchNorm(ops[0]) then InputSide
    else if IsConvLinear(ops[0]) then OutputSide
    else if |ops| >= 3 && ops[1].opType == "Dense" then OutputSide
    else NeitherSide
  }

  /** The record after the update for one side: only that side's batchnorm
      and activation change. */
  function Updated(f: Fields, side: Side, bn: Option<Op>, activation: ActivationType): (r: Fields)
    ensures side == InputSide ==>
      r.inputBn == bn && r.inActivation == activation &&
      r.outputBn == f.outputBn && r.outActivation == f.outActivation
    ensures side == OutputSide ==>
      r.outputBn == bn && r.outActivation == activation &&
      r.inputBn == f.inputBn && r.inActivation == f.inActivation
    ensures side == NeitherSide ==> r == f
  {
    match side
    case InputSide => f.(inputBn := bn, inActivation := activation)
    case OutputSide => f.(outputBn := bn, outActivation := activation)
    case NeitherSide => f
  }

  /** `ConvBnPatternHandler`: the records keyed by module. */
  class ConvBnPatternHandler {
    var convLinearsWithBn: map<Option<ModuleId>, ConvBnInfo>

    constructor ()
      ensures convLinearsWithBn == map[]
    {
      convLinearsWithBn := map[];
    }

    /** `__call__`. With no conv/linear op in the subset the final lookup of
        its module fails (AttributeError) and nothing visible has changed.
        Otherwise the conv's module maps to the fetched record, or to a new
        record with the defaults, updated for the subset's side. */
    method Call(ops: seq<Op>) returns (r: Outcome)
      modifies this, convLinearsWithBn.Values
      ensures var s := ScanOf(old(convLinearsWithBn), ops);
        s.conv.None? ==>
          r == Fail(AttributeError) && convLinearsWithBn == old(convLinearsWithBn) &&
          forall o | o in old(convLinearsWithBn.Values) :: FieldsOf(o) == old(FieldsOf(o))
      ensures var s := ScanOf(old(convLinearsWithBn), ops);
        s.conv.Some? ==>
          var key := s.conv.value.moduleId;
          r == Pass && key in convLinearsWithBn &&
          convLinearsWithBn.Keys == old(convLinearsWithBn.Keys) + {key} &&
          (forall k | k in old(convLinearsWithBn) && k != key :: convLinearsWithBn[k] == old(convLinearsWithBn[k])) &&
          (s.info.Some? ==>
             convLinearsWithBn[key] == s.info.value &&
             FieldsOf(s.info.value) == Updated(old(FieldsOf(s.info.value)), SideOf(ops), s.bn, s.activation)) &&
          (s.info.None? ==>
             fresh(convLinearsWithBn[key]) &&
             FieldsOf(convLinearsWithBn[key]) == Updated(Default, SideOf(ops), s.bn, s.activation)) &&
          forall o | o in old(convLinearsWithBn.Values) && o != convLinearsWithBn[key] ::
            FieldsOf(o) == old(FieldsOf(o))
    {
      var created := new ConvBnInfo(None, None, NoActivation, NoActivation);
      var conv, bn, activation, fetched := ScanSubset(ops);
      var info := if fetched.Some? then fetched.value else created;
      UpdateSide(info, SideOf(ops), bn, activation);
      if conv.None? {
        return Fail(AttributeError);
      }
      convLinearsWithBn := convLinearsWithBn[conv.value.moduleId := info];
      r := Pass;
    }

    /** The loop of `__call__` over the subset. */
    method ScanSubset(ops: seq<Op>)
      returns (conv: Option<Op>, bn: Option<Op>, activation: ActivationType, info: Option<ConvBnInfo>)
      ensures Scan(conv, bn, activation, info) == ScanOf(convLinearsWithBn, ops)
      ensures info.Some? ==> conv.Some? && info.value in convLinearsWithBn.Values
    {
      conv, bn, activation, info := None, None, NoActivation, None;
      for i := 0 to |ops|
        invariant Scan(conv, bn, activation, info) == ScanOf(convLinearsWithBn, ops[..i])
        invariant info.Some? ==> conv.Some? && info.value in convLinearsWithBn.Values
      {
        assert ops[..i + 1][..i] == ops[..i];
        var op := ops[i];
        var kind := KindOf(op.opType);
        if kind == ConvLinearOp {
          conv := Some(op);
          if op.moduleId in convLinearsWithBn {
            info := Some(convLinearsWithBn[op.moduleId]);
          }
        } else if kind == BatchNormOp {
          bn := Some(op);
        } else if kind == ActivationOp(Relu6) {
          activation := Relu6;
        } else if kind == ActivationOp(Relu) {
          activation := Relu;
        }
      }
      assert ops[..|ops|] == ops;
    }
  }

  /** The side rules of `__call__`, writing the record in place. */
  method UpdateSide(info: ConvBnInfo, side: Side, bn: Option<Op>, activation: ActivationType)
    modifies info
    ensures FieldsOf(info) == Updated(old(FieldsOf(info)), side, bn, activation)
  {
    if side == InputSide {
      info.inputBn := bn;
      info.inActivation := activation;
    } else if side == OutputSide {
      info.outputBn := bn;
      info.outActivation := activation;
    }
  }
}
