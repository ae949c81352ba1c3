/** The PyTorch quantization wrappers: `QcPostTrainingWrapper` (with its
    base `QcQuantizeWrapper` folded in) and `QcQuantizeStandalone` (with
    its base `QcQuantizeStandAloneBase` folded in).

    A wrapper holds one quantizer per named parameter of the wrapped
    module, an input quantizer and an output quantizer, and a working mode
    that only `SetMode` changes. Its forward pass quantizes the inputs,
    temporarily replaces every parameter by its quantize-dequantized value,
    runs the wrapped module, puts the parameters back and quantizes the
    outputs. */
module QcQuantizeOp {
  import opened Wrappers
  import opened TensorQuantizers

  predicate NoDupNames(s: seq<string>)
  {
    forall i, j | 0 <= i < j < |s| :: s[i] != s[j]
  }

  /** The wrapped `nn.Module`: its named parameters, their data, its
      `training` flag and its forward function, which sees the inputs and
      the parameter data current when it is called. */
  class WrappedModule {
    const paramNames: seq<string>
    var params: map<string, Tensor>
    var training: bool
    const forwardFn: (seq<Value>, map<string, Tensor>) -> Output

    /** The names are distinct and are exactly the keys of `params`. */
    ghost predicate Valid()
      reads this
    {
      NamesCover(paramNames, params)
    }

    constructor (paramNames: seq<string>, params: map<string, Tensor>, training: bool,
                 forwardFn: (seq<Value>, map<string, Tensor>) -> Output)
      ensures this.paramNames == paramNames && this.params == params && this.training == training
      ensures this.forwardFn == forwardFn
    {
      this.paramNames := paramNames;
      this.params := params;
      this.training := training;
      this.forwardFn := forwardFn;
    }
  }

  /** The state a post-training wrapper keeps besides the wrapped module. */
  datatype WrapperState = WrapperState(
    mode: Mode,
    training: bool,
    inputQuantizer: TensorQuantizer,
    outputQuantizer: TensorQuantizer,
    paramQuantizers: map<string, TensorQuantizer>)

  // ---------------------------------------------------------------------
  // Specification of the forward pass

  /** What `forward` leaves in the wrapper, and what it returns. */
  datatype ForwardResult = ForwardResult(state: WrapperState, result: Result<Output>)

  /** The input stage of `forward`: the input quantizer collects
      statistics over the inputs. */
  function InputStage(s: WrapperState, inputs: seq<Value>): WrapperState
  {
    s.(inputQuantizer := s.inputQuantizer.(stats := s.inputQuantizer.stats + Observed(s.mode, inputs)))
  }

  /** The parameter stage of `forward`: each parameter quantizer after the
      parameter pass. */
  function ParamStage(s: WrapperState, params: map<string, Tensor>, moduleTraining: bool,
                      encodingFn: EncodingFn, qd: QdFn): WrapperState
    requires s.paramQuantizers.Keys <= params.Keys
  {
    s.(paramQuantizers := ParamQuantizersAfter(s.paramQuantizers, params, s.mode, moduleTraining, s.training, encodingFn, qd))
  }

  /** The output stage of `forward`: with the output quantizer enabled the
      module's output is re-listed (a TypeError for a single non-tensor) and
      goes through the output quantizer, else it is returned as it is. */
  function OutputStage(s: WrapperState, qd: QdFn, wrapped: Output): (r: ForwardResult)
    ensures r.state == s.(outputQuantizer := r.state.outputQuantizer)
    ensures r.state.outputQuantizer == s.outputQuantizer.(stats := r.state.outputQuantizer.stats)
  {
    if !s.outputQuantizer.enabled then ForwardResult(s, Ok(wrapped))
    else
      var listed := Relist(wrapped);
      if listed.Err? then ForwardResult(s, Err(TypeError))
      else
        var out := s.outputQuantizer.(stats := s.outputQuantizer.stats + Observed(s.mode, listed.value));
        ForwardResult(s.(outputQuantizer := out), ActivationResult(s.outputQuantizer, qd, s.mode, s.training, listed.value))
  }

  /** `forward`: the inputs go through the input quantizer (an
      AssertionError on a non-tensor); each parameter goes through its
      quantizer; the wrapped module runs on the quantized inputs and
      parameters; then the output stage. */
  function ForwardOf(s: WrapperState, params: map<string, Tensor>, moduleTraining: bool,
                     forwardFn: (seq<Value>, map<string, Tensor>) -> Output,
                     encodingFn: EncodingFn, qd: QdFn, inputs: seq<Value>): ForwardResult
    requires s.paramQuantizers.Keys <= params.Keys
  {
    var ins := Activations(s.inputQuantizer, qd, s.mode, s.training, inputs);
    if ins.Err? then ForwardResult(InputStage(s, inputs), Err(AssertionError))
    else
      var wrapped :=
        forwardFn(ins.value, QuantizedParams(s.paramQuantizers, params, s.mode, moduleTraining, s.training, encodingFn, qd));
      OutputStage(ParamStage(InputStage(s, inputs), params, moduleTraining, encodingFn, qd), qd, wrapped)
  }

  /** The forward pass never changes the mode, the training flag, which
      parameters have quantizers, or any quantizer setting other than its
      statistics and encoding. */
  lemma ForwardKeepsSettings(s: WrapperState, params: map<string, Tensor>, moduleTraining: bool,
                             forwardFn: (seq<Value>, map<string, Tensor>) -> Output,
                             encodingFn: EncodingFn, qd: QdFn, inputs: seq<Value>)
    requires s.paramQuantizers.Keys <= params.Keys
    ensures var t := ForwardOf(s, params, moduleTraining, forwardFn, encodingFn, qd, inputs).state;
      t.mode == s.mode && t.training == s.training &&
      t.inputQuantizer == s.inputQuantizer.(stats := t.inputQuantizer.stats) &&
      t.outputQuantizer == s.outputQuantizer.(stats := t.outputQuantizer.stats) &&
      t.paramQuantizers.Keys == s.paramQuantizers.Keys &&
      forall n | n in t.paramQuantizers ::
        t.paramQuantizers[n] == s.paramQuantizers[n].(stats := t.paramQuantizers[n].stats,
                                                      encoding := t.paramQuantizers[n].encoding)
  {
    var t := ForwardOf(s, params, moduleTraining, forwardFn, encodingFn, qd, inputs).state;
    forall n | n in t.paramQuantizers
      ensures t.paramQuantizers[n] == s.paramQuantizers[n].(stats := t.paramQuantizers[n].stats,
                                                            encoding := t.paramQuantizers[n].encoding)
    {
      ParamStepProperties(s.paramQuantizers[n], params[n], s.mode, moduleTraining, s.training, encodingFn, qd);
    }
  }

  /** The forward pass fails only with the input assertion or the
      re-listing TypeError, and fails with the former exactly when some
      input is not a tensor. With the output quantizer disabled it
      therefore fails only on a non-tensor input. */
  lemma ForwardErrors(s: WrapperState, params: map<string, Tensor>, moduleTraining: bool,
                      forwardFn: (seq<Value>, map<string, Tensor>) -> Output,
                      encodingFn: EncodingFn, qd: QdFn, inputs: seq<Value>)
    requires s.paramQuantizers.Keys <= params.Keys
    ensures var r := ForwardOf(s, params, moduleTraining, forwardFn, encodingFn, qd, inputs).result;
      (r.Err? ==> r.error == AssertionError || r.error == TypeError) &&
      ((exists k :: 0 <= k < |inputs| && inputs[k].NonTensor?) ==> r == Err(AssertionError)) &&
      (!s.outputQuantizer.enabled ==> (r.Ok? <==> forall k | 0 <= k < |inputs| :: inputs[k].TensorValue?))
  {
    ActivationsFail(s.inputQuantizer, qd, s.mode, s.training, inputs);
    var ins := Activations(s.inputQuantizer, qd, s.mode, s.training, inputs);
    if ins.Ok? && s.outputQuantizer.enabled {
      var wrapped :=
        forwardFn(ins.value, QuantizedParams(s.paramQuantizers, params, s.mode, moduleTraining, s.training, encodingFn, qd));
      var listed := Relist(wrapped);
      if listed.Ok? {
        ActivationsFail(s.outputQuantizer, qd, s.mode, s.training, listed.value);
      }
    }
  }

  /** In PASSTHROUGH mode the input and parameter stages change nothing
      and hand the module its own inputs and parameters. */
  lemma PassthroughStages(s: WrapperState, params: map<string, Tensor>, moduleTraining: bool,
                          encodingFn: EncodingFn, qd: QdFn, inputs: seq<Value>)
    requires s.paramQuantizers.Keys == params.Keys && s.mode == Passthrough
    requires forall k | 0 <= k < |inputs| :: inputs[k].TensorValue?
    ensures Activations(s.inputQuantizer, qd, Passthrough, s.training, inputs) == Ok(inputs)
    ensures ParamStage(InputStage(s, inputs), params, moduleTraining, encodingFn, qd) == s
    ensures QuantizedParams(s.paramQuantizers, params, Passthrough, moduleTraining, s.training, encodingFn, qd) == params
  {
    ActivationsOfTensors(s.inputQuantizer, qd, Passthrough, s.training, inputs);
    ActivationsPassThrough(s.inputQuantizer, qd, Passthrough, s.training, inputs);
    PassthroughParams(s.paramQuantizers, params, moduleTraining, s.training, encodingFn, qd);
  }

  /** In PASSTHROUGH mode the output quantizer hands back a list of
      tensors as it is, unwrapped when it is a single tensor. */
  lemma PassthroughOutputEnabled(s: WrapperState, qd: QdFn, wrapped: Output, listed: seq<Value>)
    requires s.mode == Passthrough && s.outputQuantizer.enabled && Relist(wrapped) == Ok(listed)
    requires forall k | 0 <= k < |listed| :: listed[k].TensorValue?
    ensures OutputStage(s, qd, wrapped) == ForwardResult(s, Ok(Unwrapped(listed)))
  {
    ActivationsOfTensors(s.outputQuantizer, qd, Passthrough, s.training, listed);
    ActivationsPassThrough(s.outputQuantizer, qd, Passthrough, s.training, listed);
    assert s.outputQuantizer.(stats := s.outputQuantizer.stats + Observed(Passthrough, listed)) == s.outputQuantizer;
  }

  /** In PASSTHROUGH mode the output stage returns the module's output:
      as it is with the output quantizer disabled, unwrapped when it is a
      single tensor otherwise. */
  lemma PassthroughOutput(s: WrapperState, qd: QdFn, wrapped: Output)
    requires s.mode == Passthrough
    ensures !s.outputQuantizer.enabled ==> OutputStage(s, qd, wrapped) == ForwardResult(s, Ok(wrapped))
    ensures s.outputQuantizer.enabled && Relist(wrapped).Ok? &&
            (forall k | 0 <= k < |Relist(wrapped).value| :: Relist(wrapped).value[k].TensorValue?) ==>
      OutputStage(s, qd, wrapped) == ForwardResult(s, Ok(Unwrapped(Relist(wrapped).value)))
  {
    var listed := Relist(wrapped);
    if s.outputQuantizer.enabled && listed.Ok? && forall k | 0 <= k < |listed.value| :: listed.value[k].TensorValue? {
      PassthroughOutputEnabled(s, qd, wrapped, listed.value);
    }
  }

  /** In PASSTHROUGH mode over tensor inputs the wrapper is invisible: the
      module runs on the inputs and its own parameters, no quantizer
      changes, and a list of tensors it returns comes back as it would
      from `_quantize_activation` (a single tensor unwrapped). */
  lemma ForwardPassthrough(s: WrapperState, params: map<string, Tensor>, moduleTraining: bool,
                           forwardFn: (seq<Value>, map<string, Tensor>) -> Output,
                           encodingFn: EncodingFn, qd: QdFn, inputs: seq<Value>)
    requires s.paramQuantizers.Keys == params.Keys && s.mode == Passthrough
    requires forall k | 0 <= k < |inputs| :: inputs[k].TensorValue?
    ensures var f := ForwardOf(s, params, moduleTraining, forwardFn, encodingFn, qd, inputs);
      var wrapped := forwardFn(inputs, params);
      (!s.outputQuantizer.enabled ==> f == ForwardResult(s, Ok(wrapped))) &&
      (s.outputQuantizer.enabled && Relist(wrapped).Ok? &&
       (forall k | 0 <= k < |Relist(wrapped).value| :: Relist(wrapped).value[k].TensorValue?) ==>
         f == ForwardResult(s, Ok(Unwrapped(Relist(wrapped).value))))
  {
    PassthroughStages(s, params, moduleTraining, encodingFn, qd, inputs);
    PassthroughOutput(s, qd, forwardFn(inputs, params));
  }

  /** In ANALYSIS mode over tensor inputs the input quantizer collects
      every floating input, in order, and the module sees the inputs
      unchanged. */
  lemma ForwardAnalysisCollects(s: WrapperState, params: map<string, Tensor>, moduleTraining: bool,
                                forwardFn: (seq<Value>, map<string, Tensor>) -> Output,
                                encodingFn: EncodingFn, qd: QdFn, inputs: seq<Value>)
    requires s.paramQuantizers.Keys <= params.Keys && s.mode == Analysis
    requires forall k | 0 <= k < |inputs| :: inputs[k].TensorValue?
    ensures ForwardOf(s, params, moduleTraining, forwardFn, encodingFn, qd, inputs).state.inputQuantizer.stats ==
      s.inputQuantizer.stats + FloatTensors(inputs)
    ensures Activations(s.inputQuantizer, qd, Analysis, s.training, inputs) == Ok(inputs)
  {
    ActivationsOfTensors(s.inputQuantizer, qd, Analysis, s.training, inputs);
    ActivationsPassThrough(s.inputQuantizer, qd, Analysis, s.training, inputs);
  }

  // ---------------------------------------------------------------------
  // Setting and freezing parameter encodings

  /** An already decoded entry of a parameter-encodings dictionary. */
  datatype EncodingRecord = EncodingRecord(encoding: Encoding, isSymmetric: bool)

  /** The key `set_and_freeze_param_encoding` looks up for a parameter. */
  function ParamKey(moduleName: string, paramName: string): string
  {
    moduleName + "." + paramName
  }

  /** An entry that is present must hold at least one record. */
  predicate EntryUsable(encodings: map<string, seq<EncodingRecord>>, key: string)
  {
    key in encodings ==> |encodings[key]| > 0
  }

  /** The index of the first parameter whose entry is present but empty,
      or the number of parameters. */
  function FirstUnusable(moduleName: string, names: seq<string>, encodings: map<string, seq<EncodingRecord>>)
    : (n: nat)
    ensures n <= |names|
    ensures forall k | 0 <= k < n :: EntryUsable(encodings, ParamKey(moduleName, names[k]))
    ensures n < |names| ==> !EntryUsable(encodings, ParamKey(moduleName, names[n]))
  {
    if names == [] || !EntryUsable(encodings, ParamKey(moduleName, names[0])) then 0
    else 1 + FirstUnusable(moduleName, names[1..], encodings)
  }

  lemma FirstUnusableAt(moduleName: string, names: seq<string>, encodings: map<string, seq<EncodingRecord>>, i: nat)
    requires i <= |names|
    requires forall k | 0 <= k < i :: EntryUsable(encodings, ParamKey(moduleName, names[k]))
    requires i == |names| || !EntryUsable(encodings, ParamKey(moduleName, names[i]))
    ensures FirstUnusable(moduleName, names, encodings) == i
  {
  }

  /** The state `set_and_freeze_param_encoding` leaves in one quantizer:
      with a record present the encoding and symmetric flag are set from
      the first record and the encoding is frozen; otherwise nothing
      changes. */
  function Frozen(q: TensorQuantizer, encodings: map<string, seq<EncodingRecord>>, key: string): (r: TensorQuantizer)
    ensures key !in encodings || |encodings[key]| == 0 ==> r == q
    ensures key in encodings && |encodings[key]| > 0 ==>
      r.encoding == Some(encodings[key][0].encoding) && r.useSymmetricEncodings == encodings[key][0].isSymmetric &&
      r.frozen && r == q.(encoding := r.encoding, useSymmetricEncodings := r.useSymmetricEncodings, frozen := true)
  {
    if key in encodings && |encodings[key]| > 0 then
      q.(encoding := Some(encodings[key][0].encoding), useSymmetricEncodings := encodings[key][0].isSymmetric,
         frozen := true)
    else q
  }

  /** The parameter quantizers after setting and freezing the encodings of
      the parameters named in `done`. */
  function FrozenFor(pq: map<string, TensorQuantizer>, moduleName: string, done: seq<string>,
                     encodings: map<string, seq<EncodingRecord>>): (r: map<string, TensorQuantizer>)
    ensures r.Keys == pq.Keys
  {
    map n | n in pq :: if n in done then Frozen(pq[n], encodings, ParamKey(moduleName, n)) else pq[n]
  }

  /** Loading the same encodings twice changes nothing the first load did
      not. */
  lemma FrozenIdempotent(q: TensorQuantizer, encodings: map<string, seq<EncodingRecord>>, key: string)
    ensures Frozen(Frozen(q, encodings, key), encodings, key) == Frozen(q, encodings, key)
  {
  }

  // ---------------------------------------------------------------------
  // The loops over the parameters, in the order of `named_parameters()`

  /** The names in `names` are distinct and are exactly the keys of `m`. */
  predicate NamesCover<V>(names: seq<string>, m: map<string, V>)
  {
    NoDupNames(names) &&
    (forall k | 0 <= k < |names| :: names[k] in m) &&
    (forall n | n in m :: n in names)
  }

  /** The loop of `reset_encodings` over the parameter quantizers. */
  method ResetEach(pq: map<string, TensorQuantizer>, names: seq<string>) returns (pq': map<string, TensorQuantizer>)
    requires NamesCover(names, pq)
    ensures pq' == map n | n in pq :: ResetEncodingStats(pq[n])
  {
    pq' := pq;
    for i := 0 to |names|
      invariant pq'.Keys == pq.Keys
      invariant forall n | n in pq' :: pq'[n] == if n in names[..i] then ResetEncodingStats(pq[n]) else pq[n]
    {
      assert names[..i + 1] == names[..i] + [names[i]];
      pq' := pq'[names[i] := ResetEncodingStats(pq'[names[i]])];
    }
    assert names[..|names|] == names;
  }

  /** Progress of `_quantize_dequantize_params`: the parameters saved in
      `shadow` have been through `ParamStep`, the others are untouched. */
  ghost predicate ParamsProgress(pq: map<string, TensorQuantizer>, params: map<string, Tensor>,
                                 pq': map<string, TensorQuantizer>, params': map<string, Tensor>,
                                 shadow: map<string, Tensor>, mode: Mode, moduleTraining: bool,
                                 wrapperTraining: bool, encodingFn: EncodingFn, qd: QdFn)
  {
    pq.Keys == params.Keys && pq'.Keys == pq.Keys && params'.Keys == params.Keys &&
    (forall n | n in shadow :: n in params && shadow[n] == params[n]) &&
    forall n | n in pq ::
      ParamOutcome(pq'[n], params'[n]) ==
        if n in shadow then ParamStep(pq[n], params[n], mode, moduleTraining, wrapperTraining, encodingFn, qd)
        else ParamOutcome(pq[n], params[n])
  }

  lemma ParamsProgressStep(pq: map<string, TensorQuantizer>, params: map<string, Tensor>,
                           pq': map<string, TensorQuantizer>, params': map<string, Tensor>,
                           shadow: map<string, Tensor>, mode: Mode, moduleTraining: bool,
                           wrapperTraining: bool, encodingFn: EncodingFn, qd: QdFn,
                           name: string, q: TensorQuantizer, data: Tensor)
    requires ParamsProgress(pq, params, pq', params', shadow, mode, moduleTraining, wrapperTraining, encodingFn, qd)
    requires name in pq && name !in shadow
    requires ParamOutcome(q, data) ==
      ParamStep(pq'[name], params'[name], mode, moduleTraining, wrapperTraining, encodingFn, qd)
    ensures params'[name] == params[name]
    ensures ParamsProgress(pq, params, pq'[name := q], params'[name := data], shadow[name := params'[name]],
                           mode, moduleTraining, wrapperTraining, encodingFn, qd)
  {
  }

  lemma ParamsProgressDone(pq: map<string, TensorQuantizer>, params: map<string, Tensor>,
                           pq': map<string, TensorQuantizer>, params': map<string, Tensor>,
                           shadow: map<string, Tensor>, mode: Mode, moduleTraining: bool,
                           wrapperTraining: bool, encodingFn: EncodingFn, qd: QdFn)
    requires ParamsProgress(pq, params, pq', params', shadow, mode, moduleTraining, wrapperTraining, encodingFn, qd)
    requires forall n | n in params :: n in shadow
    ensures shadow == params
    ensures params' == QuantizedParams(pq, params, mode, moduleTraining, wrapperTraining, encodingFn, qd)
    ensures pq' == ParamQuantizersAfter(pq, params, mode, moduleTraining, wrapperTraining, encodingFn, qd)
  {
  }

  /** The loop of `_quantize_dequantize_params`: every parameter is saved
      in the shadow copy, then goes through `QuantizeParamData`. */
  method QuantizeParamsEach(pq: map<string, TensorQuantizer>, params: map<string, Tensor>, names: seq<string>,
                            mode: Mode, moduleTraining: bool, wrapperTraining: bool, encodingFn: EncodingFn, qd: QdFn)
    returns (pq': map<string, TensorQuantizer>, params': map<string, Tensor>, shadow: map<string, Tensor>)
    requires NamesCover(names, params) && pq.Keys == params.Keys
    ensures shadow == params
    ensures params' == QuantizedParams(pq, params, mode, moduleTraining, wrapperTraining, encodingFn, qd)
    ensures pq' == ParamQuantizersAfter(pq, params, mode, moduleTraining, wrapperTraining, encodingFn, qd)
  {
    pq', params', shadow := pq, params, map[];
    for i := 0 to |names|
      invariant forall k | 0 <= k < i :: names[k] in shadow
      invariant forall k | i <= k < |names| :: names[k] !in shadow
      invariant ParamsProgress(pq, params, pq', params', shadow, mode, moduleTraining, wrapperTraining, encodingFn, qd)
    {
      var name := names[i];
      assert forall k | i < k < |names| :: names[k] != name;
      var q, data := QuantizeParamData(pq'[name], params'[name], mode, moduleTraining, wrapperTraining, encodingFn, qd);
      ParamsProgressStep(pq, params, pq', params', shadow, mode, moduleTraining, wrapperTraining, encodingFn, qd,
                         name, q, data);
      shadow := shadow[name := params'[name]];
      pq' := pq'[name := q];
      params' := params'[name := data];
    }
    ParamsProgressDone(pq, params, pq', params', shadow, mode, moduleTraining, wrapperTraining, encodingFn, qd);
  }

  /** The loop of `_restore_shadow_params`: every parameter takes its
      saved value. */
  method RestoreEach(params: map<string, Tensor>, names: seq<string>, shadow: map<string, Tensor>)
    returns (params': map<string, Tensor>)
    requires NamesCover(names, params) && params.Keys <= shadow.Keys
    ensures params' == map n | n in params :: shadow[n]
  {
    params' := params;
    for i := 0 to |names|
      invariant params'.Keys == params.Keys
      invariant forall n | n in params' :: params'[n] == if n in names[..i] then shadow[n] else params[n]
    {
      assert names[..i + 1] == names[..i] + [names[i]];
      params' := params'[names[i] := shadow[names[i]]];
    }
    assert names[..|names|] == names;
  }

  /** The first `i` names are the names in `done`. */
  lemma DonePrefix(names: seq<string>, done: set<string>, i: nat)
    requires NoDupNames(names) && i <= |names|
    requires forall k | 0 <= k < i :: names[k] in done
    requires forall k | i <= k < |names| :: names[k] !in done
    ensures forall n | n in names :: n in done <==> n in names[..i]
  {
    forall n | n in names
      ensures n in done <==> n in names[..i]
    {
      var k :| 0 <= k < |names| && names[k] == n;
      if k < i {
        assert names[..i][k] == n;
      }
    }
  }

  /** Progress of `set_and_freeze_param_encoding`: the quantizers named in
      `done` are frozen, the others untouched. */
  ghost predicate FreezeProgress(pq: map<string, TensorQuantizer>, pq': map<string, TensorQuantizer>,
                                 done: set<string>, moduleName: string, encodings: map<string, seq<EncodingRecord>>)
  {
    pq'.Keys == pq.Keys &&
    forall n | n in pq' :: pq'[n] == if n in done then Frozen(pq[n], encodings, ParamKey(moduleName, n)) else pq[n]
  }

  lemma FreezeProgressStep(pq: map<string, TensorQuantizer>, pq': map<string, TensorQuantizer>, done: set<string>,
                           moduleName: string, encodings: map<string, seq<EncodingRecord>>, name: string)
    requires FreezeProgress(pq, pq', done, moduleName, encodings) && name in pq && name !in done
    ensures pq'[name] == pq[name]
    ensures FreezeProgress(pq, pq'[name := Frozen(pq[name], encodings, ParamKey(moduleName, name))], done + {name},
                           moduleName, encodings)
  {
  }

  lemma FreezeProgressSkip(pq: map<string, TensorQuantizer>, pq': map<string, TensorQuantizer>, done: set<string>,
                           moduleName: string, encodings: map<string, seq<EncodingRecord>>, name: string)
    requires FreezeProgress(pq, pq', done, moduleName, encodings) && name in pq && name !in done
    requires ParamKey(moduleName, name) !in encodings
    ensures FreezeProgress(pq, pq', done + {name}, moduleName, encodings)
  {
  }

  lemma FreezeProgressDone(pq: map<string, TensorQuantizer>, pq': map<string, TensorQuantizer>, done: set<string>,
                           moduleName: string, encodings: map<string, seq<EncodingRecord>>, prefix: seq<string>)
    requires FreezeProgress(pq, pq', done, moduleName, encodings)
    requires forall n | n in pq :: n in done <==> n in prefix
    ensures pq' == FrozenFor(pq, moduleName, prefix, encodings)
  {
  }

  /** The loop of `set_and_freeze_param_encoding`: stops with IndexError
      at the first present but empty entry. */
  method FreezeEach(pq: map<string, TensorQuantizer>, moduleName: string, names: seq<string>,
                    encodings: map<string, seq<EncodingRecord>>)
    returns (pq': map<string, TensorQuantizer>, r: Outcome)
    requires NamesCover(names, pq)
    ensures r == Pass <==> FirstUnusable(moduleName, names, encodings) == |names|
    ensures r != Pass ==> r == Fail(IndexError)
    ensures pq' == FrozenFor(pq, moduleName, names[..FirstUnusable(moduleName, names, encodings)], encodings)
  {
    pq' := pq;
    ghost var done: set<string> := {};
    for i := 0 to |names|
      invariant forall k | 0 <= k < i :: EntryUsable(encodings, ParamKey(moduleName, names[k]))
      invariant forall k | 0 <= k < i :: names[k] in done
      invariant forall k | i <= k < |names| :: names[k] !in done
      invariant FreezeProgress(pq, pq', done, moduleName, encodings)
    {
      assert forall k | i < k < |names| :: names[k] != names[i];
      var key := ParamKey(moduleName, names[i]);
      if key in encodings {
        if |encodings[key]| == 0 {
          FirstUnusableAt(moduleName, names, encodings, i);
          DonePrefix(names, done, i);
          FreezeProgressDone(pq, pq', done, moduleName, encodings, names[..i]);
          return pq', Fail(IndexError);
        }
        var record := encodings[key][0];
        FreezeProgressStep(pq, pq', done, moduleName, encodings, names[i]);
        var q := pq'[names[i]];
        q := q.(encoding := Some(record.encoding));
        q := q.(useSymmetricEncodings := record.isSymmetric);
        q := q.(frozen := true);
        pq' := pq'[names[i] := q];
      } else {
        FreezeProgressSkip(pq, pq', done, moduleName, encodings, names[i]);
      }
      done := done + {names[i]};
    }
    FirstUnusableAt(moduleName, names, encodings, |names|);
    DonePrefix(names, done, |names|);
    FreezeProgressDone(pq, pq', done, moduleName, encodings, names);
    assert names[..|names|] == names;
    return pq', Pass;
  }

  // ---------------------------------------------------------------------
  // The wrappers

  class QcPostTrainingWrapper {
    var mode: Mode
    /** `self.training` of the wrapper, distinct from the wrapped module's. */
    var training: bool
    const moduleToWrap: WrappedModule
    /** `output_quantizers[0]`, also reachable as `output_quantizer`. */
    var outputQuantizer: TensorQuantizer
    var inputQuantizer: TensorQuantizer
    var paramQuantizers: map<string, TensorQuantizer>
    const isOutputQuantized: bool
    const encodingFn: EncodingFn
    const qd: QdFn

    /** One quantizer per parameter of the wrapped module. */
    ghost predicate Valid()
      reads this, moduleToWrap
    {
      NamesCover(moduleToWrap.paramNames, moduleToWrap.params) && paramQuantizers.Keys == moduleToWrap.params.Keys
    }

    function Snapshot(): WrapperState
      reads this
    {
      WrapperState(mode, training, inputQuantizer, outputQuantizer, paramQuantizers)
    }

    /** Construction (source order: output quantizer, one enabled quantizer
        per named parameter, then the input quantizer, disabled). */
    constructor (moduleToWrap: WrappedModule, weightBw: nat, activationBw: nat, roundMode: RoundMode,
                 quantScheme: PymoScheme, isOutputQuantized: bool, isSymmetric: bool,
                 encodingFn: EncodingFn, qd: QdFn)
      requires moduleToWrap.Valid()
      ensures Valid()
      ensures this.moduleToWrap == moduleToWrap && this.isOutputQuantized == isOutputQuantized
      ensures this.encodingFn == encodingFn && this.qd == qd
      ensures Snapshot() == WrapperState(
        Passthrough, true,
        NewQuantizer(activationBw, roundMode, quantScheme, isSymmetric, false),
        NewQuantizer(activationBw, roundMode, quantScheme, isSymmetric, isOutputQuantized),
        map n | n in moduleToWrap.params :: NewQuantizer(weightBw, roundMode, quantScheme, isSymmetric, true))
    {
      var out := NewQuantizer(activationBw, roundMode, quantScheme, isSymmetric, isOutputQuantized);
      var names := moduleToWrap.paramNames;
      var wq := NewQuantizer(weightBw, roundMode, quantScheme, isSymmetric, true);
      var pq: map<string, TensorQuantizer> := map[];
      for i := 0 to |names|
        invariant forall n | n in pq :: n in names[..i] && pq[n] == wq
        invariant forall k | 0 <= k < i :: names[k] in pq
      {
        assert names[..i + 1] == names[..i] + [names[i]];
        pq := pq[names[i] := wq];
      }
      assert names[..|names|] == names;
      assert pq == map n | n in moduleToWrap.params :: wq;
      var inp := NewQuantizer(activationBw, roundMode, quantScheme, isSymmetric, false);
      mode := Passthrough;
      training := true;
      this.moduleToWrap := moduleToWrap;
      outputQuantizer := out;
      inputQuantizer := inp;
      paramQuantizers := pq;
      this.isOutputQuantized := isOutputQuantized;
      this.encodingFn := encodingFn;
      this.qd := qd;
    }

    method SetMode(m: Mode)
      modifies this
      ensures Snapshot() == old(Snapshot()).(mode := m)
    {
      mode := m;
    }

    method SetOutputBw(bw: nat)
      modifies this
      ensures Snapshot() == old(Snapshot()).(outputQuantizer := old(outputQuantizer).(bitwidth := bw))
    {
      outputQuantizer := outputQuantizer.(bitwidth := bw);
    }

    /** Every quantizer drops its statistics and encoding. */
    method ResetEncodings()
      requires Valid()
      modifies this
      ensures Snapshot() == old(Snapshot()).(
        inputQuantizer := ResetEncodingStats(old(inputQuantizer)),
        outputQuantizer := ResetEncodingStats(old(outputQuantizer)),
        paramQuantizers := map n | n in old(paramQuantizers) :: ResetEncodingStats(old(paramQuantizers)[n]))
    {
      inputQuantizer := ResetEncodingStats(inputQuantizer);
      outputQuantizer := ResetEncodingStats(outputQuantizer);
      paramQuantizers := ResetEach(paramQuantizers, moduleToWrap.paramNames);
    }

    /** The input and the output quantizer analyse their statistics. */
    method ComputeEncoding()
      modifies this
      ensures Snapshot() == old(Snapshot()).(
        inputQuantizer := TensorQuantizers.ComputeEncoding(old(inputQuantizer), encodingFn),
        outputQuantizer := TensorQuantizers.ComputeEncoding(old(outputQuantizer), encodingFn))
    {
      inputQuantizer := TensorQuantizers.ComputeEncoding(inputQuantizer, encodingFn);
      outputQuantizer := TensorQuantizers.ComputeEncoding(outputQuantizer, encodingFn);
    }

    /** The encoding of the `weight` quantizer, or None without one. */
    method ComputeWeightEncodings() returns (r: Option<Encoding>)
      ensures r.Some? ==> "weight" in paramQuantizers && r == paramQuantizers["weight"].encoding
      ensures "weight" in paramQuantizers ==> r == paramQuantizers["weight"].encoding
    {
      if "weight" in paramQuantizers {
        return paramQuantizers["weight"].encoding;
      }
      return None;
    }

    /** `_quantize_activation` with one of the wrapper's quantizers: the
        loop, then a single output is unwrapped. */
    method QuantizeActivation(q: TensorQuantizer, vs: seq<Value>) returns (q': TensorQuantizer, r: Result<Output>)
      ensures r == ActivationResult(q, qd, mode, training, vs)
      ensures q' == q.(stats := q.stats + Observed(mode, vs))
    {
      var outs;
      q', outs := QuantizeEach(q, qd, mode, training, vs);
      if outs.Err? {
        return q', Err(outs.error);
      }
      if |outs.value| == 1 {
        return q', Ok(One(outs.value[0]));
      }
      return q', Ok(Several(outs.value));
    }

    /** `_quantize_dequantize_params`: saves every parameter and replaces
        it by its quantize-dequantized value where the mode and its
        quantizer call for it. */
    method QuantizeDequantizeParams() returns (shadow: map<string, Tensor>)
      requires Valid()
      modifies this, moduleToWrap
      ensures Valid() && moduleToWrap.training == old(moduleToWrap.training)
      ensures shadow == old(moduleToWrap.params)
      ensures moduleToWrap.params ==
        QuantizedParams(old(paramQuantizers), old(moduleToWrap.params), mode, old(moduleToWrap.training), training,
                        encodingFn, qd)
      ensures Snapshot() == old(Snapshot()).(paramQuantizers :=
        ParamQuantizersAfter(old(paramQuantizers), old(moduleToWrap.params), mode, old(moduleToWrap.training), training,
                             encodingFn, qd))
    {
      var params;
      paramQuantizers, params, shadow :=
        QuantizeParamsEach(paramQuantizers, moduleToWrap.params, moduleToWrap.paramNames, mode, moduleToWrap.training,
                           training, encodingFn, qd);
      moduleToWrap.params := params;
    }

    /** `_restore_shadow_params`: every parameter takes its saved value. */
    method RestoreShadowParams(shadow: map<string, Tensor>)
      requires Valid() && moduleToWrap.params.Keys <= shadow.Keys
      modifies moduleToWrap
      ensures Valid() && moduleToWrap.training == old(moduleToWrap.training)
      ensures moduleToWrap.params == map n | n in old(moduleToWrap.params) :: shadow[n]
    {
      moduleToWrap.params := RestoreEach(moduleToWrap.params, moduleToWrap.paramNames, shadow);
    }

    /** `forward`, proved against `ForwardOf`; the parameters are the same
        afterwards as before. */
    method Forward(inputs: seq<Value>) returns (r: Result<Output>)
      requires Valid()
      modifies this, moduleToWrap
      ensures Valid()
      ensures moduleToWrap.params == old(moduleToWrap.params) && moduleToWrap.training == old(moduleToWrap.training)
      ensures ForwardResult(Snapshot(), r) ==
        ForwardOf(old(Snapshot()), old(moduleToWrap.params), old(moduleToWrap.training), moduleToWrap.forwardFn,
                  encodingFn, qd, inputs)
    {
      ghost var s := Snapshot();
      var quantizedInputs;
      inputQuantizer, quantizedInputs := QuantizeActivation(inputQuantizer, inputs);
      if quantizedInputs.Err? {
        return Err(AssertionError);
      }
      ghost var ins := Activations(s.inputQuantizer, qd, mode, training, inputs).value;
      QuantizeValuesPointwise(s.inputQuantizer, qd, mode, training, inputs);
      ActivationsFail(s.inputQuantizer, qd, mode, training, inputs);
      RelistUnwrapped(ins);
      var listedInputs := Relist(quantizedInputs.value).value;
      var shadow := QuantizeDequantizeParams();
      var wrappedOutput := moduleToWrap.forwardFn(listedInputs, moduleToWrap.params);
      RestoreShadowParams(shadow);
      if !outputQuantizer.enabled {
        return Ok(wrappedOutput);
      }
      var listed := Relist(wrappedOutput);
      if listed.Err? {
        return Err(TypeError);
      }
      outputQuantizer, r := QuantizeActivation(outputQuantizer, listed.value);
    }

    /** `set_and_freeze_param_encoding`: sets and freezes the encoding of
        every parameter whose key `module_name.param` is present; an empty
        entry raises IndexError, leaving the quantizers before it set. */
    method SetAndFreezeParamEncoding(moduleName: string, encodings: map<string, seq<EncodingRecord>>)
      returns (r: Outcome)
      requires Valid()
      modifies this
      ensures r == Pass <==> FirstUnusable(moduleName, moduleToWrap.paramNames, encodings) == |moduleToWrap.paramNames|
      ensures r != Pass ==> r == Fail(IndexError)
      ensures Snapshot() == old(Snapshot()).(paramQuantizers :=
        FrozenFor(old(paramQuantizers), moduleName,
                  moduleToWrap.paramNames[..FirstUnusable(moduleName, moduleToWrap.paramNames, encodings)], encodings))
    {
      paramQuantizers, r := FreezeEach(paramQuantizers, moduleName, moduleToWrap.paramNames, encodings);
    }
  }

  /** The standalone activation quantizer: one output quantizer, enabled. */
  class QcQuantizeStandalone {
    var mode: Mode
    var training: bool
    var outputQuantizer: TensorQuantizer
    const encodingFn: EncodingFn
    const qd: QdFn

    constructor (activationBw: nat, roundMode: RoundMode, quantScheme: PymoScheme, isSymmetric: bool,
                 encodingFn: EncodingFn, qd: QdFn)
      ensures mode == Passthrough && training
      ensures outputQuantizer == NewQuantizer(activationBw, roundMode, quantScheme, isSymmetric, true)
      ensures this.encodingFn == encodingFn && this.qd == qd
    {
      mode := Passthrough;
      training := true;
      outputQuantizer := NewQuantizer(activationBw, roundMode, quantScheme, isSymmetric, true);
      this.encodingFn := encodingFn;
      this.qd := qd;
    }

    method SetMode(m: Mode)
      modifies this
      ensures mode == m && training == old(training) && outputQuantizer == old(outputQuantizer)
    {
      mode := m;
    }

    method SetOutputBw(bw: nat)
      modifies this
      ensures mode == old(mode) && training == old(training)
      ensures outputQuantizer == old(outputQuantizer).(bitwidth := bw)
    {
      outputQuantizer := outputQuantizer.(bitwidth := bw);
    }

    method ComputeEncoding()
      modifies this
      ensures mode == old(mode) && training == old(training)
      ensures outputQuantizer == TensorQuantizers.ComputeEncoding(old(outputQuantizer), encodingFn)
    {
      outputQuantizer := TensorQuantizers.ComputeEncoding(outputQuantizer, encodingFn);
    }

    /** `forward`: the base routine over the inputs, which collects every
        input in ANALYSIS mode and quantize-dequantizes every input in
        ACTIVE mode, whatever its dtype. */
    method Forward(inputs: seq<Tensor>) returns (r: Output)
      modifies this
      ensures mode == old(mode) && training == old(training)
      ensures r == Unwrapped(StandaloneOutputs(old(outputQuantizer), qd, mode, training, inputs))
      ensures outputQuantizer == old(outputQuantizer).(stats := old(outputQuantizer).stats + if mode == Analysis then inputs else [])
    {
      var outs;
      outputQuantizer, outs := StandaloneEach(outputQuantizer, qd, mode, training, inputs);
      return Unwrapped(outs);
    }
  }
}
