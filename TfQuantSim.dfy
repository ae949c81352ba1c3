/** Quantizer bookkeeping of the TensorFlow quantization simulator: the
    dictionary mapping each op of the connected graph to its parameter
    quantizers (by parameter type) and its activation quantizer, the search
    for the quantizer feeding a parameter, and the dtype test for
    quantizable ops.

    A TensorFlow graph is a map from op name to op; each input of an op is
    named by the op producing it, and each output lists the names of its
    consumers. A connected-graph op is identified by name; which one a TF
    op belongs to is a total function from TF op name. */
module TfQuantSim {
  import opened Wrappers

  datatype TfTensor = TfTensor(dtype: string, consumers: seq<string>)

  datatype TfOp = TfOp(name: string, opType: string, inputs: seq<string>, outputs: seq<TfTensor>)

  type TfGraph = map<string, TfOp>

  /** A connected-graph op, by name. */
  type ConnOp = string

  /** Every input and every consumer of every op is an op of the graph. */
  predicate Closed(g: TfGraph)
  {
    (forall n, k | n in g && 0 <= k < |g[n].inputs| :: g[n].inputs[k] in g) &&
    (forall n, j, c | n in g && 0 <= j < |g[n].outputs| && c in g[n].outputs[j].consumers :: c in g)
  }

  /** `DTYPES_QUANTIZE_NOT_REQUIRED`. */
  const DtypesQuantizeNotRequired: seq<string> :=
    ["int8", "uint8", "int16", "uint16", "int32", "uint32", "int64", "uint64", "bool", "string", "resource"]

  /** The op types a parameter quantizer may have. */
  const QuantizerTypes: seq<string> := ["QcQuantize", "QcQuantizeRecurrentParam"]

  /** `is_op_quantizable`: the op has an output whose dtype is not on the
      excluded list. */
  function IsOpQuantizable(op: TfOp): (r: bool)
    ensures r <==> |op.outputs| > 0 && op.outputs[0].dtype !in DtypesQuantizeNotRequired
    ensures |op.outputs| > 0 && op.outputs[0].dtype in ["float16", "float32", "float64", "bfloat16"] ==> r
  {
    if |op.outputs| > 0 then op.outputs[0].dtype !in DtypesQuantizeNotRequired else false
  }

  /** `get_op_input_indices`: every named op must exist, and the weight
      input indices found for them (by a query outside this model) must
      come one per op. */
  function GetOpInputIndices(g: TfGraph, opsWithParamNames: seq<string>, inputIndices: seq<nat>): (r: Result<seq<nat>>)
    ensures r.Ok? <==> (forall k | 0 <= k < |opsWithParamNames| :: opsWithParamNames[k] in g) &&
                        |opsWithParamNames| == |inputIndices|
    ensures r.Ok? ==> r.value == inputIndices
    ensures r.Err? ==> r.error in {KeyError, AssertionError}
    ensures (exists k | 0 <= k < |opsWithParamNames| :: opsWithParamNames[k] !in g) ==> r == Err(KeyError)
  {
    if exists k | 0 <= k < |opsWithParamNames| :: opsWithParamNames[k] !in g then Err(KeyError)
    else if |opsWithParamNames| != |inputIndices| then Err(AssertionError)
    else Ok(inputIndices)
  }

  /** The parameter type recorded for an op. */
  function ParamType(opType: string): (r: string)
    ensures r == "bias" <==> opType == "BiasAdd"
    ensures r != "bias" ==> r == "weight"
  {
    if opType == "BiasAdd" then "bias" else "weight"
  }

  // ---------------------------------------------------------------------
  // get_param_quantizer

  /** The last of `names` whose op is a quantizer, or `fallback`. */
  function LastQuantizerIn(g: TfGraph, names: seq<string>, fallback: string): (r: string)
    requires forall k | 0 <= k < |names| :: names[k] in g
    ensures r == fallback || (r in names && g[r].opType in QuantizerTypes)
  {
    if names == [] then fallback
    else if g[names[|names| - 1]].opType in QuantizerTypes then names[|names| - 1]
    else LastQuantizerIn(g, names[..|names| - 1], fallback)
  }

  /** The op an op's `index`-th input comes from, looking through a
      StridedSlice or Split to the last quantizer feeding it. */
  function ParamQuantizerOf(g: TfGraph, op: TfOp, index: nat): (r: Result<string>)
    requires Closed(g) && forall k | 0 <= k < |op.inputs| :: op.inputs[k] in g
    ensures r.Ok? ==> r.value in g
  {
    if index >= |op.inputs| then Err(IndexError)
    else
      var input := op.inputs[index];
      if g[input].opType in ["StridedSlice", "Split"] then Ok(LastQuantizerIn(g, g[input].inputs, input))
      else Ok(input)
  }

  /** The quantizer found is the last quantizer among the names. */
  lemma {:induction false} LastQuantizerIsLast(g: TfGraph, names: seq<string>, fallback: string, k: nat)
    requires forall j | 0 <= j < |names| :: names[j] in g
    requires k < |names| && g[names[k]].opType in QuantizerTypes
    requires forall j | k < j < |names| :: g[names[j]].opType !in QuantizerTypes
    ensures LastQuantizerIn(g, names, fallback) == names[k]
    decreases |names|
  {
    var n := |names| - 1;
    if k < n {
      assert forall j | k < j < n :: names[..n][j] == names[j];
      LastQuantizerIsLast(g, names[..n], fallback, k);
    }
  }

  /** Without any quantizer among the names, the fallback is returned. */
  lemma {:induction false} LastQuantizerNone(g: TfGraph, names: seq<string>, fallback: string)
    requires forall j | 0 <= j < |names| :: names[j] in g && g[names[j]].opType !in QuantizerTypes
    ensures LastQuantizerIn(g, names, fallback) == fallback
    decreases |names|
  {
    if names != [] {
      var n := |names| - 1;
      assert forall j | 0 <= j < n :: names[..n][j] == names[j];
      LastQuantizerNone(g, names[..n], fallback);
    }
  }

  /** A parameter fed directly (not through StridedSlice or Split) comes
      from its input op; otherwise from that op or one of its quantizer
      inputs. */
  lemma ParamQuantizerCases(g: TfGraph, op: TfOp, index: nat)
    requires Closed(g) && forall k | 0 <= k < |op.inputs| :: op.inputs[k] in g
    ensures ParamQuantizerOf(g, op, index).Err? <==> index >= |op.inputs|
    ensures ParamQuantizerOf(g, op, index).Err? ==> ParamQuantizerOf(g, op, index).error == IndexError
    ensures index < |op.inputs| && g[op.inputs[index]].opType !in ["StridedSlice", "Split"] ==>
      ParamQuantizerOf(g, op, index) == Ok(op.inputs[index])
    ensures index < |op.inputs| && g[op.inputs[index]].opType in ["StridedSlice", "Split"] ==>
      var r := ParamQuantizerOf(g, op, index).value;
      r == op.inputs[index] || (r in g[op.inputs[index]].inputs && g[r].opType in QuantizerTypes)
  {
    if index < |op.inputs| {
      var input := op.inputs[index];
      assert forall j | 0 <= j < |g[input].inputs| :: g[input].inputs[j] in g;
    }
  }

  /** `get_param_quantizer`. */
  method GetParamQuantizer(g: TfGraph, op: TfOp, index: nat) returns (r: Result<string>)
    requires Closed(g) && forall k | 0 <= k < |op.inputs| :: op.inputs[k] in g
    ensures r == ParamQuantizerOf(g, op, index)
  {
    if index >= |op.inputs| {
      return Err(IndexError);
    }
    var quantizedOp := op.inputs[index];
    if g[op.inputs[index]].opType in ["StridedSlice", "Split"] {
      var matmulInputOp := g[op.inputs[index]];
      for i := 0 to |matmulInputOp.inputs|
        invariant quantizedOp == LastQuantizerIn(g, matmulInputOp.inputs[..i], op.inputs[index])
      {
        assert matmulInputOp.inputs[..i + 1][..i] == matmulInputOp.inputs[..i];
        if g[matmulInputOp.inputs[i]].opType in QuantizerTypes {
          quantizedOp := matmulInputOp.inputs[i];
        }
      }
      assert matmulInputOp.inputs[..|matmulInputOp.inputs|] == matmulInputOp.inputs;
    }
    return Ok(quantizedOp);
  }

  // ---------------------------------------------------------------------
  // The op to quant ops dictionary

  /** The two-item entry of a connected-graph op: its parameter quantizers
      by parameter type, and its activation quantizer. */
  datatype QuantOps = QuantOps(params: map<string, set<string>>, activation: Option<string>)

  type OpToQuantOpsDict = map<ConnOp, QuantOps>

  /** `add_op_to_quant_ops_dict_entry`: a parameter quantizer joins the set
      for its type (a new entry has no activation quantizer yet); an
      activation quantizer fills the second slot (a new entry has no
      parameter quantizers). */
  function AddOpToQuantOpsDictEntry(qcQuantizeOp: string, connOp: ConnOp, isParam: bool, paramType: string,
                                    d: OpToQuantOpsDict): (d': OpToQuantOpsDict)
    ensures d'.Keys == d.Keys + {connOp}
    ensures forall o | o in d && o != connOp :: d'[o] == d[o]
    ensures isParam && connOp !in d ==> d'[connOp] == QuantOps(map[paramType := {qcQuantizeOp}], None)
    ensures isParam && connOp in d ==>
      d'[connOp].activation == d[connOp].activation &&
      d'[connOp].params.Keys == d[connOp].params.Keys + {paramType} &&
      d'[connOp].params[paramType] ==
        (if paramType in d[connOp].params then d[connOp].params[paramType] else {}) + {qcQuantizeOp} &&
      forall t | t in d[connOp].params && t != paramType :: d'[connOp].params[t] == d[connOp].params[t]
    ensures !isParam ==>
      d'[connOp] == QuantOps(if connOp in d then d[connOp].params else map[], Some(qcQuantizeOp))
  {
    if isParam then
      if connOp in d then
        var paramQuantOpDict := d[connOp].params;
        var updated := if paramType in paramQuantOpDict
                       then paramQuantOpDict[paramType := paramQuantOpDict[paramType] + {qcQuantizeOp}]
                       else paramQuantOpDict[paramType := {qcQuantizeOp}];
        d[connOp := d[connOp].(params := updated)]
      else d[connOp := QuantOps(map[paramType := {qcQuantizeOp}], None)]
    else if connOp in d then d[connOp := d[connOp].(activation := Some(qcQuantizeOp))]
    else d[connOp := QuantOps(map[], Some(qcQuantizeOp))]
  }

  /** The consumers of an output that are `QcQuantize` ops, in order. */
  function QcQuantizeConsumers(g: TfGraph, consumers: seq<string>): (r: seq<string>)
    requires forall k | 0 <= k < |consumers| :: consumers[k] in g
    ensures forall c | c in r :: c in consumers && g[c].opType == "QcQuantize"
    ensures forall c | c in consumers && g[c].opType == "QcQuantize" :: c in r
  {
    if consumers == [] then []
    else (if g[consumers[0]].opType == "QcQuantize" then [consumers[0]] else []) + QcQuantizeConsumers(g, consumers[1..])
  }

  /** One op with a parameter: its op must exist, its quantizer must be
      found and be a quantizer op. */
  function ParamEntryStep(g: TfGraph, connOpOf: string -> ConnOp, d: OpToQuantOpsDict, name: string, index: nat)
    : Result<OpToQuantOpsDict>
    requires Closed(g)
  {
    if name !in g then Err(KeyError)
    else
      var op := g[name];
      var q := ParamQuantizerOf(g, op, index);
      if q.Err? then Err(q.error)
      else if g[q.value].opType !in QuantizerTypes then Err(AssertionError)
      else Ok(AddOpToQuantOpsDictEntry(q.value, connOpOf(name), true, ParamType(op.opType), d))
  }

  /** One op with an activation quantizer: its first output must have
      exactly one `QcQuantize` consumer. */
  function ActivationEntryStep(g: TfGraph, connOpOf: string -> ConnOp, d: OpToQuantOpsDict, name: string)
    : Result<OpToQuantOpsDict>
    requires Closed(g)
  {
    if name !in g then Err(KeyError)
    else if |g[name].outputs| == 0 then Err(IndexError)
    else
      var qs := QcQuantizeConsumers(g, g[name].outputs[0].consumers);
      if |qs| != 1 then Err(AssertionError)
      else Ok(AddOpToQuantOpsDictEntry(qs[0], connOpOf(name), false, "", d))
  }

  /** The dictionary after the parameter loop over the first pairs of
      names and indices; the first failure aborts. */
  function ParamEntries(g: TfGraph, connOpOf: string -> ConnOp, names: seq<string>, indices: seq<nat>)
    : Result<OpToQuantOpsDict>
    requires Closed(g) && |names| == |indices|
  {
    if names == [] then Ok(map[])
    else
      var n := |names| - 1;
      var prev := ParamEntries(g, connOpOf, names[..n], indices[..n]);
      if prev.Err? then prev else ParamEntryStep(g, connOpOf, prev.value, names[n], indices[n])
  }

  /** The dictionary after the activation loop, starting from `d0`. */
  function ActivationEntries(g: TfGraph, connOpOf: string -> ConnOp, d0: OpToQuantOpsDict, names: seq<string>)
    : Result<OpToQuantOpsDict>
    requires Closed(g)
  {
    if names == [] then Ok(d0)
    else
      var n := |names| - 1;
      var prev := ActivationEntries(g, connOpOf, d0, names[..n]);
      if prev.Err? then prev else ActivationEntryStep(g, connOpOf, prev.value, names[n])
  }

  function Min(a: nat, b: nat): nat
  {
    if a <= b then a else b
  }

  /** `create_op_to_quant_ops_dict`: the parameter loop over the pairs of
      the two lists (as `zip`, up to the shorter), then the activation
      loop. */
  function OpToQuantOpsDictOf(g: TfGraph, connOpOf: string -> ConnOp, opsWithParamNames: seq<string>,
                              indices: seq<nat>, activationOpNames: seq<string>): Result<OpToQuantOpsDict>
    requires Closed(g)
  {
    var n := Min(|opsWithParamNames|, |indices|);
    var params := ParamEntries(g, connOpOf, opsWithParamNames[..n], indices[..n]);
    if params.Err? then params else ActivationEntries(g, connOpOf, params.value, activationOpNames)
  }

  /** A failure of the parameter loop over a prefix is the failure of every
      longer prefix. */
  lemma {:induction false} ParamEntriesFailFrom(g: TfGraph, connOpOf: string -> ConnOp, names: seq<string>,
                                                indices: seq<nat>, k: nat)
    requires Closed(g) && |names| == |indices| && k <= |names|
    requires ParamEntries(g, connOpOf, names[..k], indices[..k]).Err?
    ensures ParamEntries(g, connOpOf, names, indices) == ParamEntries(g, connOpOf, names[..k], indices[..k])
    decreases |names|
  {
    if k < |names| {
      var n := |names| - 1;
      assert names[..n][..k] == names[..k] && indices[..n][..k] == indices[..k];
      ParamEntriesFailFrom(g, connOpOf, names[..n], indices[..n], k);
    } else {
      assert names[..k] == names && indices[..k] == indices;
    }
  }

  /** The same for the activation loop. */
  lemma {:induction false} ActivationEntriesFailFrom(g: TfGraph, connOpOf: string -> ConnOp, d0: OpToQuantOpsDict,
                                                     names: seq<string>, k: nat)
    requires Closed(g) && k <= |names|
    requires ActivationEntries(g, connOpOf, d0, names[..k]).Err?
    ensures ActivationEntries(g, connOpOf, d0, names) == ActivationEntries(g, connOpOf, d0, names[..k])
    decreases |names|
  {
    if k < |names| {
      var n := |names| - 1;
      assert names[..n][..k] == names[..k];
      ActivationEntriesFailFrom(g, connOpOf, d0, names[..n], k);
    } else {
      assert names[..k] == names;
    }
  }

  /** Every quantizer in the dictionary is a quantizer op of the graph, and
      every activation quantizer is a `QcQuantize` op. */
  predicate WellTyped(g: TfGraph, d: OpToQuantOpsDict)
  {
    forall o | o in d ::
      (forall t, q | t in d[o].params && q in d[o].params[t] :: q in g && g[q].opType in QuantizerTypes) &&
      (d[o].activation.Some? ==> d[o].activation.value in g && g[d[o].activation.value].opType == "QcQuantize")
  }

  /** Adding a quantizer op as a parameter quantizer keeps the
      dictionary well typed. */
  lemma AddParamKeepsWellTyped(g: TfGraph, d: OpToQuantOpsDict, q: string, connOp: ConnOp, paramType: string)
    requires WellTyped(g, d) && q in g && g[q].opType in QuantizerTypes
    ensures WellTyped(g, AddOpToQuantOpsDictEntry(q, connOp, true, paramType, d))
  {
    var d' := AddOpToQuantOpsDictEntry(q, connOp, true, paramType, d);
    if connOp in d {
      forall t, x | t in d'[connOp].params && x in d'[connOp].params[t]
        ensures x in g && g[x].opType in QuantizerTypes
      {
        if t == paramType {
          assert x == q || x in d[connOp].params[t];
        }
      }
    }
  }

  /** Adding a `QcQuantize` op as the activation quantizer keeps the
      dictionary well typed. */
  lemma AddActivationKeepsWellTyped(g: TfGraph, d: OpToQuantOpsDict, q: string, connOp: ConnOp)
    requires WellTyped(g, d) && q in g && g[q].opType == "QcQuantize"
    ensures WellTyped(g, AddOpToQuantOpsDictEntry(q, connOp, false, "", d))
  {
  }

  /** What the parameter loop builds is well typed. */
  lemma {:induction false} ParamEntriesWellTyped(g: TfGraph, connOpOf: string -> ConnOp, names: seq<string>,
                                                 indices: seq<nat>)
    requires Closed(g) && |names| == |indices|
    requires ParamEntries(g, connOpOf, names, indices).Ok?
    ensures WellTyped(g, ParamEntries(g, connOpOf, names, indices).value)
    decreases |names|
  {
    if names != [] {
      var n := |names| - 1;
      ParamEntriesWellTyped(g, connOpOf, names[..n], indices[..n]);
      var d := ParamEntries(g, connOpOf, names[..n], indices[..n]).value;
      var op := g[names[n]];
      assert forall k | 0 <= k < |op.inputs| :: op.inputs[k] in g;
      ParamQuantizerCases(g, op, indices[n]);
      var q := ParamQuantizerOf(g, op, indices[n]).value;
      assert q in g;
      AddParamKeepsWellTyped(g, d, q, connOpOf(names[n]), ParamType(op.opType));
    }
  }

  /** The activation loop keeps the dictionary well typed. */
  lemma {:induction false} ActivationEntriesWellTyped(g: TfGraph, connOpOf: string -> ConnOp, d0: OpToQuantOpsDict,
                                                      names: seq<string>)
    requires Closed(g) && WellTyped(g, d0)
    requires ActivationEntries(g, connOpOf, d0, names).Ok?
    ensures WellTyped(g, ActivationEntries(g, connOpOf, d0, names).value)
    decreases |names|
  {
    if names != [] {
      var n := |names| - 1;
      ActivationEntriesWellTyped(g, connOpOf, d0, names[..n]);
      var d := ActivationEntries(g, connOpOf, d0, names[..n]).value;
      var consumers := g[names[n]].outputs[0].consumers;
      var qs := QcQuantizeConsumers(g, consumers);
      assert qs[0] in qs;
      AddActivationKeepsWellTyped(g, d, qs[0], connOpOf(names[n]));
    }
  }

  /** The whole dictionary is well typed. */
  lemma OpToQuantOpsDictWellTyped(g: TfGraph, connOpOf: string -> ConnOp, opsWithParamNames: seq<string>,
                                  indices: seq<nat>, activationOpNames: seq<string>)
    requires Closed(g)
    requires OpToQuantOpsDictOf(g, connOpOf, opsWithParamNames, indices, activationOpNames).Ok?
    ensures WellTyped(g, OpToQuantOpsDictOf(g, connOpOf, opsWithParamNames, indices, activationOpNames).value)
  {
    var n := Min(|opsWithParamNames|, |indices|);
    ParamEntriesWellTyped(g, connOpOf, opsWithParamNames[..n], indices[..n]);
    ActivationEntriesWellTyped(g, connOpOf, ParamEntries(g, connOpOf, opsWithParamNames[..n], indices[..n]).value,
                               activationOpNames);
  }

  /** `d` holds `q` among the parameter quantizers of type `t` of `o`. */
  predicate HoldsParam(d: OpToQuantOpsDict, o: ConnOp, t: string, q: string)
  {
    o in d && t in d[o].params && q in d[o].params[t]
  }

  /** Adding an entry never drops a parameter quantizer. */
  lemma AddKeepsParams(d: OpToQuantOpsDict, q: string, connOp: ConnOp, isParam: bool, paramType: string,
                       o: ConnOp, t: string, x: string)
    requires HoldsParam(d, o, t, x)
    ensures HoldsParam(AddOpToQuantOpsDictEntry(q, connOp, isParam, paramType, d), o, t, x)
  {
  }

  /** The activation loop never drops a parameter quantizer. */
  lemma {:induction false} ActivationEntriesKeepParams(g: TfGraph, connOpOf: string -> ConnOp, d0: OpToQuantOpsDict,
                                                       names: seq<string>, o: ConnOp, t: string, x: string)
    requires Closed(g) && HoldsParam(d0, o, t, x)
    requires ActivationEntries(g, connOpOf, d0, names).Ok?
    ensures HoldsParam(ActivationEntries(g, connOpOf, d0, names).value, o, t, x)
    decreases |names|
  {
    if names != [] {
      var n := |names| - 1;
      ActivationEntriesKeepParams(g, connOpOf, d0, names[..n], o, t, x);
      var d := ActivationEntries(g, connOpOf, d0, names[..n]).value;
      var qs := QcQuantizeConsumers(g, g[names[n]].outputs[0].consumers);
      AddKeepsParams(d, qs[0], connOpOf(names[n]), false, "", o, t, x);
    }
  }

  /** Every parameter quantizer the parameter loop meets is in the
      dictionary it builds, under its op and its parameter type. */
  lemma {:induction false} ParamEntriesHold(g: TfGraph, connOpOf: string -> ConnOp, names: seq<string>,
                                            indices: seq<nat>, k: nat)
    requires Closed(g) && |names| == |indices| && k < |names|
    requires ParamEntries(g, connOpOf, names, indices).Ok?
    ensures names[k] in g && (forall j | 0 <= j < |g[names[k]].inputs| :: g[names[k]].inputs[j] in g)
    ensures ParamQuantizerOf(g, g[names[k]], indices[k]).Ok?
    ensures HoldsParam(ParamEntries(g, connOpOf, names, indices).value, connOpOf(names[k]),
                       ParamType(g[names[k]].opType), ParamQuantizerOf(g, g[names[k]], indices[k]).value)
    decreases |names|
  {
    var n := |names| - 1;
    var prev := ParamEntries(g, connOpOf, names[..n], indices[..n]);
    if k < n {
      assert names[..n][k] == names[k] && indices[..n][k] == indices[k];
      ParamEntriesHold(g, connOpOf, names[..n], indices[..n], k);
      var op := g[names[n]];
      var q := ParamQuantizerOf(g, op, indices[n]).value;
      AddKeepsParams(prev.value, q, connOpOf(names[n]), true, ParamType(op.opType), connOpOf(names[k]),
                     ParamType(g[names[k]].opType), ParamQuantizerOf(g, g[names[k]], indices[k]).value);
    }
  }

  /** Every parameter quantizer of the parameter loop survives into the
      final dictionary. */
  lemma ParamQuantizersKept(g: TfGraph, connOpOf: string -> ConnOp, opsWithParamNames: seq<string>,
                            indices: seq<nat>, activationOpNames: seq<string>, k: nat)
    requires Closed(g) && k < |opsWithParamNames| && k < |indices|
    requires OpToQuantOpsDictOf(g, connOpOf, opsWithParamNames, indices, activationOpNames).Ok?
    ensures opsWithParamNames[k] in g
    ensures forall j | 0 <= j < |g[opsWithParamNames[k]].inputs| :: g[opsWithParamNames[k]].inputs[j] in g
    ensures ParamQuantizerOf(g, g[opsWithParamNames[k]], indices[k]).Ok?
    ensures HoldsParam(OpToQuantOpsDictOf(g, connOpOf, opsWithParamNames, indices, activationOpNames).value,
                       connOpOf(opsWithParamNames[k]), ParamType(g[opsWithParamNames[k]].opType),
                       ParamQuantizerOf(g, g[opsWithParamNames[k]], indices[k]).value)
  {
    var n := Min(|opsWithParamNames|, |indices|);
    var names, idx := opsWithParamNames[..n], indices[..n];
    assert names[k] == opsWithParamNames[k] && idx[k] == indices[k];
    ParamEntriesHold(g, connOpOf, names, idx, k);
    ActivationEntriesKeepParams(g, connOpOf, ParamEntries(g, connOpOf, names, idx).value, activationOpNames,
                                connOpOf(names[k]), ParamType(g[names[k]].opType),
                                ParamQuantizerOf(g, g[names[k]], idx[k]).value);
  }

  /** An activation op without exactly one `QcQuantize` consumer makes the
      construction fail, once the parameter loop has succeeded. */
  lemma ActivationQuantizerCount(g: TfGraph, connOpOf: string -> ConnOp, opsWithParamNames: seq<string>,
                                 indices: seq<nat>, activationOpNames: seq<string>, k: nat)
    requires Closed(g) && k < |activationOpNames|
    requires activationOpNames[k] in g && |g[activationOpNames[k]].outputs| > 0
    requires |QcQuantizeConsumers(g, g[activationOpNames[k]].outputs[0].consumers)| != 1
    ensures OpToQuantOpsDictOf(g, connOpOf, opsWithParamNames, indices, activationOpNames).Err?
  {
    var n := Min(|opsWithParamNames|, |indices|);
    var params := ParamEntries(g, connOpOf, opsWithParamNames[..n], indices[..n]);
    if params.Ok? {
      var names := activationOpNames;
      var prev := ActivationEntries(g, connOpOf, params.value, names[..k]);
      assert names[..k + 1][..k] == names[..k];
      assert ActivationEntries(g, connOpOf, params.value, names[..k + 1]).Err?;
      ActivationEntriesFailFrom(g, connOpOf, params.value, names, k + 1);
    }
  }

  /** The parameter loop of `create_op_to_quant_ops_dict`. */
  method AddParamEntries(g: TfGraph, connOpOf: string -> ConnOp, names: seq<string>, indices: seq<nat>)
    returns (r: Result<OpToQuantOpsDict>)
    requires Closed(g) && |names| == |indices|
    ensures r == ParamEntries(g, connOpOf, names, indices)
  {
    var opToQuantOpsDict: OpToQuantOpsDict := map[];
    for i := 0 to |names|
      invariant ParamEntries(g, connOpOf, names[..i], indices[..i]) == Ok(opToQuantOpsDict)
    {
      assert names[..i + 1][..i] == names[..i] && indices[..i + 1][..i] == indices[..i];
      if names[i] !in g {
        ParamEntriesFailFrom(g, connOpOf, names, indices, i + 1);
        return Err(KeyError);
      }
      var opWithParam := g[names[i]];
      var connGraphOp := connOpOf(names[i]);
      var paramType := "weight";
      if opWithParam.opType == "BiasAdd" {
        paramType := "bias";
      }
      var paramQuantizer := GetParamQuantizer(g, opWithParam, indices[i]);
      if paramQuantizer.Err? {
        ParamEntriesFailFrom(g, connOpOf, names, indices, i + 1);
        return Err(paramQuantizer.error);
      }
      if g[paramQuantizer.value].opType !in QuantizerTypes {
        ParamEntriesFailFrom(g, connOpOf, names, indices, i + 1);
        return Err(AssertionError);
      }
      opToQuantOpsDict := AddOpToQuantOpsDictEntry(paramQuantizer.value, connGraphOp, true, paramType, opToQuantOpsDict);
    }
    assert names[..|names|] == names && indices[..|indices|] == indices;
    return Ok(opToQuantOpsDict);
  }

  /** The activation loop of `create_op_to_quant_ops_dict`. */
  method AddActivationEntries(g: TfGraph, connOpOf: string -> ConnOp, d0: OpToQuantOpsDict, names: seq<string>)
    returns (r: Result<OpToQuantOpsDict>)
    requires Closed(g)
    ensures r == ActivationEntries(g, connOpOf, d0, names)
  {
    var opToQuantOpsDict := d0;
    for i := 0 to |names|
      invariant ActivationEntries(g, connOpOf, d0, names[..i]) == Ok(opToQuantOpsDict)
    {
      assert names[..i + 1][..i] == names[..i];
      if names[i] !in g {
        ActivationEntriesFailFrom(g, connOpOf, d0, names, i + 1);
        return Err(KeyError);
      }
      var activationOp := g[names[i]];
      var connGraphOp := connOpOf(names[i]);
      if |activationOp.outputs| == 0 {
        ActivationEntriesFailFrom(g, connOpOf, d0, names, i + 1);
        return Err(IndexError);
      }
      var activationQuantizer := QcQuantizeConsumers(g, activationOp.outputs[0].consumers);
      if |activationQuantizer| != 1 {
        ActivationEntriesFailFrom(g, connOpOf, d0, names, i + 1);
        return Err(AssertionError);
      }
      opToQuantOpsDict := AddOpToQuantOpsDictEntry(activationQuantizer[0], connGraphOp, false, "", opToQuantOpsDict);
    }
    assert names[..|names|] == names;
    return Ok(opToQuantOpsDict);
  }

  /** `create_op_to_quant_ops_dict`: the parameter entries over the pairs
      of the two lists, then the activation entries. */
  method CreateOpToQuantOpsDict(g: TfGraph, connOpOf: string -> ConnOp, opsWithParamNames: seq<string>,
                                indices: seq<nat>, activationOpNames: seq<string>)
    returns (r: Result<OpToQuantOpsDict>)
    requires Closed(g)
    ensures r == OpToQuantOpsDictOf(g, connOpOf, opsWithParamNames, indices, activationOpNames)
  {
    var n := Min(|opsWithParamNames|, |indices|);
    r := AddParamEntries(g, connOpOf, opsWithParamNames[..n], indices[..n]);
    if r.Ok? {
      r := AddActivationEntries(g, connOpOf, r.value, activationOpNames);
    }
  }
}
