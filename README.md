# AIMET core bookkeeping, modelled in Dafny

This project models the graph and quantizer bookkeeping at the heart of
AIMET (the AI Model Efficiency Toolkit). It covers six parts:

- **Cross-layer equalization (TensorFlow).**
  - Layer groups are found by a depth-first walk over the connected graph (`LayerGroups`).
  - A group is cut into pairs and triplets of layers to scale, together with the record types those sets travel in (`ClsSets`).
  - Conv and depthwise kernels are read, handed to the scaling kernel and written back, with the layout transposes the code applies (`CrossLayerScaling`, `Layout`).
  - The high-bias fold runs over the recorded layer pairs (`HighBiasFold`).
- **Conv/batchnorm pattern handler** used by bias correction (`BiasCorrection`). It finds the conv or linear layer in a matched pattern, the batchnorm and the activation. It then records which side of the conv they sit on.
- **Module to following-activation map** built from a connected graph (`ConnectedGraphUtils`).
- **PyTorch quantization wrappers** (`QcQuantizeOp`, `TensorQuantizers`):
  - the post-training wrapper: input, parameter and output quantizers around a wrapped module, with forward, encoding computation, reset and freezing from an encoding file;
  - the standalone output quantizer.
- **TensorFlow quantsim dictionary** (`TfQuantSim`). It maps each connected-graph op to the quantize ops inserted for its parameters and its output. It also covers the quantizable and input-index helpers.
- **TensorFlow `QcQuantize` kernel** (`TfQcQuantizeKernel`): the shape function and the mode switch of `modeSpecificAction` over the native quantizer.

Numeric kernels are functions passed in as parameters and are never interpreted:

- the scaling kernels;
- the bias-fold update;
- the batchnorm reader;
- the quantize-dequantize functions;
- the encoding analysis.

The model proves what the bookkeeping around them does:

- which parameters are read and written;
- which layouts are used;
- which errors are raised and when;
- which state survives each operation.

Where a Python or C++ routine mutates a list, dictionary, buffer or object in place, the model does the same:

- a `class` with `modifies` clauses;
- an `array` for the kernel's output buffer;
- loops with invariants.

Each such method is proved equal to a specification function on values. Lemmas then state what the source promises about that function.

The quantizer list in `get_param_quantizer`
(TrainingExtensions/tensorflow/src/python/aimet_tensorflow/utils/quantsim.py:66-73)
accepts both `QcQuantize` and `QcQuantizeRecurrentParam` ops. The model
follows the code in this.

## Model

| member | source | states |
|---|---|---|
| LayerGroups.Group.constructor | TrainingExtensions/tensorflow/src/python/aimet_tensorflow/cross_layer_equalization.py:102-103 | a new current group holds no layers |
| LayerGroups.FindDownstreamLayerGroups | TrainingExtensions/tensorflow/src/python/aimet_tensorflow/cross_layer_equalization.py:92-132 | visited only grows, stays duplicate-free and holds the op; an op already visited changes nothing; a conv is appended to an open group; a non-pass-through op closes the current group and records it when it has more than one layer; every recorded group is made of conv layers of the graph |
| LayerGroups.ExpandOpen | TrainingExtensions/tensorflow/src/python/aimet_tensorflow/cross_layer_equalization.py:107-126 | a pass-through op is marked visited, a conv joins the group and its consumers are walked, and a group of more than one layer ends up recorded |
| LayerGroups.ExpandClosing | TrainingExtensions/tensorflow/src/python/aimet_tensorflow/cross_layer_equalization.py:116-126 | an op that ends a group records the current group when it has more than one layer and restarts the walk from a fresh group |
| LayerGroups.RecordGroup | TrainingExtensions/tensorflow/src/python/aimet_tensorflow/cross_layer_equalization.py:116-121 | a group is appended exactly when it has more than one layer and is not yet recorded |
| LayerGroups.VisitConsumers | TrainingExtensions/tensorflow/src/python/aimet_tensorflow/cross_layer_equalization.py:123-126 | walking the consumers only grows visited and the recorded groups, and keeps the current group made of conv layers |
| LayerGroups.FindLayerGroupsToScale | TrainingExtensions/tensorflow/src/python/aimet_tensorflow/cross_layer_equalization.py:134-152 | every op fed by a model input is visited; the groups found are valid conv groups |
| ClsSets.ChainFromShape | TrainingExtensions/tensorflow/src/python/aimet_tensorflow/cross_layer_equalization.py:186-207 | successful splitting chains the sets (each starts at the previous end), triplets are centred on a depthwise conv, and the set tails are exactly the remaining layers |
| ClsSets.ClsSetsShape | TrainingExtensions/tensorflow/src/python/aimet_tensorflow/cross_layer_equalization.py:186-207 | the sets cover the group layer by layer, and there are sets exactly when the group has more than one layer |
| ClsSets.ChainFromFailure | TrainingExtensions/tensorflow/src/python/aimet_tensorflow/cross_layer_equalization.py:196-201 | splitting fails only with an IndexError, when the last layer is a depthwise conv with no successor |
| ClsSets.ClsSetsFailure | TrainingExtensions/tensorflow/src/python/aimet_tensorflow/cross_layer_equalization.py:186-207 | failure is an IndexError on an empty group or one ending in a depthwise conv, and a non-empty group not ending in one always splits |
| ClsSets.ConvertLayerGroupToClsSets | TrainingExtensions/tensorflow/src/python/aimet_tensorflow/cross_layer_equalization.py:186-207 | the group's layer list is consumed (emptied) and the result is the split of its old layers |
| ClsSets.ReluFlagsOf | TrainingExtensions/tensorflow/src/python/aimet_tensorflow/cross_layer_equalization.py:210-235 | one flag per set: a pair gets the relu test of its first layer, a triplet the pair of tests of its first two layers |
| ClsSets.PairInfo.constructor | TrainingExtensions/tensorflow/src/python/aimet_tensorflow/cross_layer_equalization.py:275-281 | a pair record stores its two layers, scale factor and relu flag |
| ClsSets.CreateClsSetInfoList | TrainingExtensions/tensorflow/src/python/aimet_tensorflow/cross_layer_equalization.py:483-517 | an AssertionError when the three lists differ in length; otherwise an error exactly when some set has a tuple of scale factors but is not a triplet with a pair of flags, and the first such set decides it: AssertionError for a pair, TypeError for a triplet with a single flag; otherwise one record per set, a tuple factor giving two pair records with the matching factors and flags and a single factor one record of the first two layers |
| ClsSets.ErrorAt | TrainingExtensions/tensorflow/src/python/aimet_tensorflow/cross_layer_equalization.py:501-502 | a set with a tuple of scale factors that does not fit fails with AssertionError exactly when it is not a triplet, and with TypeError exactly when it is a triplet with a single bool flag |
| ClsSets.NameMapOf | TrainingExtensions/tensorflow/src/python/aimet_tensorflow/cross_layer_equalization.py:238-255 | every op of a kept type is in the map under its name, and every entry is such an op of the list |
| ClsSets.NameMapOfLast | TrainingExtensions/tensorflow/src/python/aimet_tensorflow/cross_layer_equalization.py:250-253 | when names repeat, the last op of a name wins |
| ClsSets.MapOpNamesToOps | TrainingExtensions/tensorflow/src/python/aimet_tensorflow/cross_layer_equalization.py:238-255 | the loop builds exactly the name map of the ops |
| ClsSets.RebindClsSets | TrainingExtensions/tensorflow/src/python/aimet_tensorflow/cross_layer_equalization.py:290-303 | names are kept; it succeeds exactly when every layer name of every pair record is in the dictionary, and then every record is bound to the dictionary's op; otherwise a KeyError at a record with a missing name, every record before it already bound |
| CrossLayerScaling.Session.constructor | TrainingExtensions/tensorflow/src/python/aimet_tensorflow/cross_layer_equalization.py:310-324 | a session holds the given ops and parameter store |
| CrossLayerScaling.WriteConv | TrainingExtensions/tensorflow/src/python/aimet_tensorflow/cross_layer_equalization.py:380-388 | the layer's new weight is the kernel-layout weight transposed by (2, 3, 1, 0) and its shape is permuted the same way; its bias and every other layer stay |
| CrossLayerScaling.WriteDepthwise | TrainingExtensions/tensorflow/src/python/aimet_tensorflow/cross_layer_equalization.py:457-470 | the layer's new weight is the kernel-layout weight transposed by (2, 3, 0, 1), with its shape permuted the same way; its bias and every other layer stay |
| CrossLayerScaling.SetBias | TrainingExtensions/tensorflow/src/python/aimet_tensorflow/cross_layer_equalization.py:389-392 | a layer with a bias gets the given bias; a layer without one leaves the whole store unchanged; weight, shape and other layers stay |
| CrossLayerScaling.ScalePair | TrainingExtensions/tensorflow/src/python/aimet_tensorflow/cross_layer_equalization.py:343-394 | both layers hold the kernel's output written back in TensorFlow layout with shapes kept (the second write winning when both are one layer), the first layer's bias is the kernel's where it has one, the result is the kernel's scale; nothing else changes |
| CrossLayerScaling.ScaleTriplet | TrainingExtensions/tensorflow/src/python/aimet_tensorflow/cross_layer_equalization.py:397-480 | the three layers hold the kernel's three weights written back in source order (middle in depthwise layout), shapes kept, the first two biases are the kernel's where present, the results are the two scales; nothing else changes |
| CrossLayerScaling.WriteTripletWeights | TrainingExtensions/tensorflow/src/python/aimet_tensorflow/cross_layer_equalization.py:457-470 | each of the three layers holds its transposed kernel weight and permuted shape, a later write to the same layer winning; other layers and all biases stay |
| CrossLayerScaling.WriteTripletBiases | TrainingExtensions/tensorflow/src/python/aimet_tensorflow/cross_layer_equalization.py:471-478 | the first two layers' biases become the kernel's where present, the middle one winning on aliasing; weights, shapes, bias presence and other layers stay |
| CrossLayerScaling.ScaleSet | TrainingExtensions/tensorflow/src/python/aimet_tensorflow/cross_layer_equalization.py:327-340 | a ValueError, with nothing written, exactly when a member is not a conv; otherwise the pair or triplet kernel output is written as in the pair and triplet scalings and the factor is single or double accordingly; non-members are untouched |
| CrossLayerScaling.ScaleSetStepProperties | TrainingExtensions/tensorflow/src/python/aimet_tensorflow/cross_layer_equalization.py:327-340 | the per-set step fails as described, matches factor arity, keeps its frame and keeps bias presence |
| CrossLayerScaling.ScaleAll | TrainingExtensions/tensorflow/src/python/aimet_tensorflow/cross_layer_equalization.py:310-324 | the loop over sets keeps the store's keys and every shape four-dimensional; exact shapes are kept by ScaleAllKeepsShapes |
| CrossLayerScaling.ScaleAllFails | TrainingExtensions/tensorflow/src/python/aimet_tensorflow/cross_layer_equalization.py:310-324 | the loop fails exactly when some set has a non-conv member, and then with a ValueError |
| CrossLayerScaling.ScaleAllFactors | TrainingExtensions/tensorflow/src/python/aimet_tensorflow/cross_layer_equalization.py:318-324 | on success there is one factor per set, double exactly for triplets |
| CrossLayerScaling.ScaleAllUntouched | TrainingExtensions/tensorflow/src/python/aimet_tensorflow/cross_layer_equalization.py:310-324 | a layer in no set keeps its parameters |
| CrossLayerScaling.ScaleAllKeepsBiasPresence | TrainingExtensions/tensorflow/src/python/aimet_tensorflow/cross_layer_equalization.py:310-324 | no layer gains or loses a bias |
| CrossLayerScaling.ScaleSetKeepsShapes | TrainingExtensions/tensorflow/src/python/aimet_tensorflow/cross_layer_equalization.py:327-340 | scaling one set leaves every layer's shape exactly as it was |
| CrossLayerScaling.ScaleSetStepKeepsShapes | TrainingExtensions/tensorflow/src/python/aimet_tensorflow/cross_layer_equalization.py:327-340 | the per-set step keeps every layer's shape |
| CrossLayerScaling.ScaleAllKeepsShapes | TrainingExtensions/tensorflow/src/python/aimet_tensorflow/cross_layer_equalization.py:310-324 | no layer's shape changes over the whole loop |
| CrossLayerScaling.ScaleClsSetWithConvLayers | TrainingExtensions/tensorflow/src/python/aimet_tensorflow/cross_layer_equalization.py:343-394 | a ValueError with the store unchanged unless both layers are convs; otherwise the store and the result are those of the pair scaling |
| CrossLayerScaling.ScaleClsSetWithDepthwiseLayers | TrainingExtensions/tensorflow/src/python/aimet_tensorflow/cross_layer_equalization.py:397-480 | a ValueError with the store unchanged unless all three layers are convs; otherwise the store and both factors are those of the triplet scaling |
| CrossLayerScaling.ScaleClsSet | TrainingExtensions/tensorflow/src/python/aimet_tensorflow/cross_layer_equalization.py:327-340 | dispatch on the set's arity gives exactly the per-set step |
| CrossLayerScaling.ScaleClsSets | TrainingExtensions/tensorflow/src/python/aimet_tensorflow/cross_layer_equalization.py:310-324 | the session's store and the factor list are those of the loop specification |
| CrossLayerScaling.ConvWriteBack | TrainingExtensions/tensorflow/src/python/aimet_tensorflow/cross_layer_equalization.py:360-387 | writing back an unmodified conv kernel read from the session leaves the store unchanged |
| CrossLayerScaling.DepthwiseWriteBack | TrainingExtensions/tensorflow/src/python/aimet_tensorflow/cross_layer_equalization.py:428-465 | writing back an unmodified depthwise kernel leaves the store unchanged |
| CrossLayerScaling.WriteConvReadBack | TrainingExtensions/tensorflow/src/python/aimet_tensorflow/cross_layer_equalization.py:360-388 | reading a conv back after a write returns the written kernel-layout weight and shape: the write-back inverts the read |
| CrossLayerScaling.WriteDepthwiseReadBack | TrainingExtensions/tensorflow/src/python/aimet_tensorflow/cross_layer_equalization.py:428-470 | reading a depthwise layer back after a write returns the written weight, its shape and the layer's bias |
| CrossLayerScaling.ScalePairIdentity | TrainingExtensions/tensorflow/src/python/aimet_tensorflow/cross_layer_equalization.py:343-394 | a scaling kernel that returns its inputs leaves the store unchanged |
| CrossLayerScaling.ScaleTripletIdentity | TrainingExtensions/tensorflow/src/python/aimet_tensorflow/cross_layer_equalization.py:397-480 | a triplet kernel that returns its inputs leaves the store unchanged |
| CrossLayerScaling.ScaleAllUnchanged | TrainingExtensions/tensorflow/src/python/aimet_tensorflow/cross_layer_equalization.py:310-324 | a step that preserves every store preserves it over the whole loop |
| CrossLayerScaling.IdentityKernelsKeepStore | TrainingExtensions/tensorflow/src/python/aimet_tensorflow/cross_layer_equalization.py:327-340 | identity kernels make the per-set step store-preserving |
| CrossLayerScaling.ScaleAllIdentity | TrainingExtensions/tensorflow/src/python/aimet_tensorflow/cross_layer_equalization.py:310-324 | with identity kernels, scaling all sets is the identity on the store |
| Layout.Inverse | TrainingExtensions/tensorflow/src/python/aimet_tensorflow/cross_layer_equalization.py:360-387 | the inverse of an axis order is an axis order |
| Layout.InverseProperties | TrainingExtensions/tensorflow/src/python/aimet_tensorflow/cross_layer_equalization.py:360-387 | the inverse of a permutation is a permutation, inverts it on both sides, and is an involution |
| Layout.TransposeShape | TrainingExtensions/tensorflow/src/python/aimet_tensorflow/cross_layer_equalization.py:360-387 | a transpose has the permuted shape |
| Layout.TransposeAt | TrainingExtensions/tensorflow/src/python/aimet_tensorflow/cross_layer_equalization.py:360-387 | each element of a transpose is the element at the inversely permuted index |
| Layout.TransposeAtPermuted | TrainingExtensions/tensorflow/src/python/aimet_tensorflow/cross_layer_equalization.py:360-387 | the element at index i moves to the permuted index |
| Layout.RoundTripElement | TrainingExtensions/tensorflow/src/python/aimet_tensorflow/cross_layer_equalization.py:360-387 | transposing by p and then by its inverse restores every element |
| Layout.TransposeRoundTrip | TrainingExtensions/tensorflow/src/python/aimet_tensorflow/cross_layer_equalization.py:360-387 | transposing by p and then by its inverse restores the tensor and its shape |
| Layout.ConvLayoutRoundTrip | TrainingExtensions/tensorflow/src/python/aimet_tensorflow/cross_layer_equalization.py:360-387 | the conv orders (3,2,0,1) used to read and (2,3,1,0) used to write are inverse: the kernel shape is permuted as the code expects and write-back restores the tensor |
| Layout.DepthwiseLayoutRoundTrip | TrainingExtensions/tensorflow/src/python/aimet_tensorflow/cross_layer_equalization.py:428-465 | the depthwise order (2,3,0,1) is its own inverse, so read-then-write restores the tensor |
| HighBiasFold.BnDictOfFails | TrainingExtensions/tensorflow/src/python/aimet_tensorflow/cross_layer_equalization.py:605-611 | building the batchnorm dictionary fails exactly when a folded batchnorm's name is not in the session, with a KeyError |
| HighBiasFold.BnDictOfKeys | TrainingExtensions/tensorflow/src/python/aimet_tensorflow/cross_layer_equalization.py:609-611 | its keys are exactly the names of the folded convs |
| HighBiasFold.BnDictOfLast | TrainingExtensions/tensorflow/src/python/aimet_tensorflow/cross_layer_equalization.py:609-611 | each conv maps to the session op of its last folded batchnorm |
| HighBiasFold.RefreshLayerSetInfo | TrainingExtensions/tensorflow/src/python/aimet_tensorflow/cross_layer_equalization.py:594-616 | a KeyError when a batchnorm or a pair layer is missing from the session, with the records left unbound if the dictionary fails; on success the batchnorm dictionary is returned and every pair record is rebound to the session's ops |
| HighBiasFold.FoldPair | TrainingExtensions/tensorflow/src/python/aimet_tensorflow/cross_layer_equalization.py:647-704 | a pair without a folded batchnorm or without two biases is skipped; a relu flag pair is a TypeError before any write; otherwise the second layer's bias, and the first's when it is another layer, become the biases `updateBias` computes, and weights, shapes and bias presence stay |
| HighBiasFold.FoldAll | TrainingExtensions/tensorflow/src/python/aimet_tensorflow/cross_layer_equalization.py:642-702 | the loop over pair records keeps the store's keys and every shape four-dimensional, and can only fail with a TypeError; exact shapes are kept by FoldAllOnlyBiases |
| HighBiasFold.FoldsStable | TrainingExtensions/tensorflow/src/python/aimet_tensorflow/cross_layer_equalization.py:647-651 | whether a pair takes part depends only on bias presence, which the fold keeps |
| HighBiasFold.FoldAllOnlyBiases | TrainingExtensions/tensorflow/src/python/aimet_tensorflow/cross_layer_equalization.py:642-702 | the fold never changes a weight, a shape or bias presence |
| HighBiasFold.FoldAllUntouched | TrainingExtensions/tensorflow/src/python/aimet_tensorflow/cross_layer_equalization.py:642-702 | a layer in no pair record keeps its parameters |
| HighBiasFold.FoldAllSkipped | TrainingExtensions/tensorflow/src/python/aimet_tensorflow/cross_layer_equalization.py:647-651 | when no pair takes part, the fold changes nothing and passes |
| HighBiasFold.FoldAllFails | TrainingExtensions/tensorflow/src/python/aimet_tensorflow/cross_layer_equalization.py:642-702 | the fold fails exactly when some participating pair carries a flag pair |
| HighBiasFold.FlattenPairs | TrainingExtensions/tensorflow/src/python/aimet_tensorflow/cross_layer_equalization.py:642-644 | the flattened pairs are all pair records of the set records |
| HighBiasFold.FoldAllAppend | TrainingExtensions/tensorflow/src/python/aimet_tensorflow/cross_layer_equalization.py:642-644 | folding a concatenation is folding the first part and then, unless it failed, the second |
| HighBiasFold.FoldAllAt | TrainingExtensions/tensorflow/src/python/aimet_tensorflow/cross_layer_equalization.py:642-702 | a fold that passes, split at any record, passes on the records before it and on that record, then continues from the store they leave |
| HighBiasFold.FoldAllUntouchedAfter | TrainingExtensions/tensorflow/src/python/aimet_tensorflow/cross_layer_equalization.py:642-702 | a layer no later record names keeps its tensors through the rest of the fold |
| HighBiasFold.FoldAllLastWrite | TrainingExtensions/tensorflow/src/python/aimet_tensorflow/cross_layer_equalization.py:642-704 | when the fold passes, a participating record has a single relu flag, and a layer of it that no later record names ends with the bias `updateBias` computes for that record |
| HighBiasFold.FoldPairRecord | TrainingExtensions/tensorflow/src/python/aimet_tensorflow/cross_layer_equalization.py:647-704 | one loop iteration writes exactly what the pair specification computes |
| HighBiasFold.FoldPairRecords | TrainingExtensions/tensorflow/src/python/aimet_tensorflow/cross_layer_equalization.py:643-702 | the inner loop writes exactly what the fold specification computes |
| HighBiasFold.FoldSetRecords | TrainingExtensions/tensorflow/src/python/aimet_tensorflow/cross_layer_equalization.py:642-702 | the nested loops write exactly the fold of the flattened records |
| HighBiasFold.BiasFold | TrainingExtensions/tensorflow/src/python/aimet_tensorflow/cross_layer_equalization.py:619-709 | a KeyError, with the store unchanged, exactly when the batchnorm dictionary or a rebinding fails; otherwise the records are rebound and the store is the fold over all pair records; with no folded batchnorm nothing changes |
| BiasCorrection.ConvBnInfo.constructor | TrainingExtensions/common/src/python/aimet_common/bias_correction.py:51-66 | a record stores the input and output batchnorms and activations it is given |
| BiasCorrection.ScanConvNone | TrainingExtensions/common/src/python/aimet_common/bias_correction.py:100-110 | no conv is found exactly when the pattern holds no conv or linear op |
| BiasCorrection.ScanConvIsLast | TrainingExtensions/common/src/python/aimet_common/bias_correction.py:100-110 | the conv found is the last conv or linear op of the pattern |
| BiasCorrection.ScanBnNone | TrainingExtensions/common/src/python/aimet_common/bias_correction.py:100-110 | no batchnorm is found exactly when the pattern holds none |
| BiasCorrection.ScanBnIsLast | TrainingExtensions/common/src/python/aimet_common/bias_correction.py:100-110 | the batchnorm found is the last one |
| BiasCorrection.ScanActivationNone | TrainingExtensions/common/src/python/aimet_common/bias_correction.py:100-110 | the activation stays none exactly when the pattern holds no relu or relu6 |
| BiasCorrection.ScanActivationIsLast | TrainingExtensions/common/src/python/aimet_common/bias_correction.py:100-110 | the activation found is the type of the last activation op |
| BiasCorrection.ScanInfoNone | TrainingExtensions/common/src/python/aimet_common/bias_correction.py:100-110 | no earlier record is found exactly when no conv of the pattern already has one |
| BiasCorrection.ScanInfoIsLast | TrainingExtensions/common/src/python/aimet_common/bias_correction.py:100-110 | the earlier record found is that of the last conv that has one |
| BiasCorrection.Updated | TrainingExtensions/common/src/python/aimet_common/bias_correction.py:112-123 | a batchnorm before the conv sets the input fields, one after it the output fields, and the other side is kept; a pattern with neither changes nothing |
| BiasCorrection.ConvBnPatternHandler.constructor | TrainingExtensions/common/src/python/aimet_common/bias_correction.py:74-75 | the handler starts with no records |
| BiasCorrection.ConvBnPatternHandler.ScanSubset | TrainingExtensions/common/src/python/aimet_common/bias_correction.py:100-110 | the loop computes the scan specification, and an earlier record it finds is one the handler holds |
| BiasCorrection.UpdateSide | TrainingExtensions/common/src/python/aimet_common/bias_correction.py:112-123 | the record's fields become the side update of their old values |
| BiasCorrection.ConvBnPatternHandler.Call | TrainingExtensions/common/src/python/aimet_common/bias_correction.py:84-125 | with no conv in the pattern, an AttributeError and nothing changes; otherwise the conv's module gains a record (the earlier one updated in place, or a fresh one from the defaults), every other record is unchanged |
| ConnectedGraphUtils.Following | TrainingExtensions/torch/src/python/aimet_torch/meta/connectedgraph_utils.py:80-97 | an AssertionError exactly when the op has an output with no consumer; no output gives no activation; otherwise the first consumer's module is returned exactly when it is an activation |
| ConnectedGraphUtils.ActPairsFailAt | TrainingExtensions/torch/src/python/aimet_torch/meta/connectedgraph_utils.py:89 | any op with a module whose output has no consumer makes the whole call an AssertionError |
| ConnectedGraphUtils.ActPairsSucceed | TrainingExtensions/torch/src/python/aimet_torch/meta/connectedgraph_utils.py:80-97 | the only error is an AssertionError, and without such an op the call succeeds |
| ConnectedGraphUtils.ActPairsKeys | TrainingExtensions/torch/src/python/aimet_torch/meta/connectedgraph_utils.py:80-97 | the keys are exactly the modules of the ops |
| ConnectedGraphUtils.ActPairsAreActivations | TrainingExtensions/torch/src/python/aimet_torch/meta/connectedgraph_utils.py:51-53 | every value is none or a module of an activation type |
| ConnectedGraphUtils.ActPairsLast | TrainingExtensions/torch/src/python/aimet_torch/meta/connectedgraph_utils.py:80-97 | a module maps to what follows its last op in the list |
| ConnectedGraphUtils.GetModuleActFuncPair | TrainingExtensions/torch/src/python/aimet_torch/meta/connectedgraph_utils.py:56-100 | the loop builds exactly the specified map or error |
| TensorQuantizers.RoundModeNamed | TrainingExtensions/torch/src/python/aimet_torch/qc_quantize_op.py:53-54 | only "nearest" and "stochastic" are round modes, anything else a KeyError |
| TensorQuantizers.PymoSchemeOf | TrainingExtensions/torch/src/python/aimet_torch/qc_quantize_op.py:56-57 | the two post-training schemes map to their native schemes, range learning is a KeyError |
| TensorQuantizers.Handled | TrainingExtensions/torch/src/python/aimet_torch/qc_quantize_op.py:397-399 | the count of leading tensor inputs, stopping at the first non-tensor |
| TensorQuantizers.QuantizeValuesPointwise | TrainingExtensions/torch/src/python/aimet_torch/qc_quantize_op.py:396-416 | activations are quantized one input at a time, keeping the count |
| TensorQuantizers.RelistUnwrapped | TrainingExtensions/torch/src/python/aimet_torch/qc_quantize_op.py:424-425 | unwrapping a single output and listing it again is the identity |
| TensorQuantizers.ActivationsFail | TrainingExtensions/torch/src/python/aimet_torch/qc_quantize_op.py:397-399 | activation quantization fails exactly when an input is not a tensor, with an AssertionError |
| TensorQuantizers.ActivationsPassThrough | TrainingExtensions/torch/src/python/aimet_torch/qc_quantize_op.py:400-416 | integer tensors, and every tensor outside the active mode, pass through unchanged |
| TensorQuantizers.ActivationsActive | TrainingExtensions/torch/src/python/aimet_torch/qc_quantize_op.py:409-416 | in the active mode a float tensor is quantize-dequantized with the quantizer's encoding and bit-width, rounding by the configured mode only in training |
| TensorQuantizers.ObservedOnlyInAnalysis | TrainingExtensions/torch/src/python/aimet_torch/qc_quantize_op.py:404-407 | statistics are gathered only in the analysis mode, and only from float input tensors |
| TensorQuantizers.FloatTensorsSound | TrainingExtensions/torch/src/python/aimet_torch/qc_quantize_op.py:400-407 | the collected tensors are float inputs |
| TensorQuantizers.ObservedAllFloats | TrainingExtensions/torch/src/python/aimet_torch/qc_quantize_op.py:400-407 | in the analysis mode every float input is collected |
| TensorQuantizers.FloatTensorsComplete | TrainingExtensions/torch/src/python/aimet_torch/qc_quantize_op.py:400-407 | no float input is missed |
| TensorQuantizers.ActivationsOfTensors | TrainingExtensions/torch/src/python/aimet_torch/qc_quantize_op.py:386-427 | on tensor inputs activation quantization succeeds with the pointwise result, and observes the float tensors in the analysis mode only |
| TensorQuantizers.StandaloneOutputs | TrainingExtensions/torch/src/python/aimet_torch/qc_quantize_op.py:151-186 | the standalone quantizer returns one output per input, each quantized on its own |
| TensorQuantizers.StandaloneIdentity | TrainingExtensions/torch/src/python/aimet_torch/qc_quantize_op.py:151-186 | outside the active mode the standalone quantizer returns its inputs |
| TensorQuantizers.ParamStepProperties | TrainingExtensions/torch/src/python/aimet_torch/qc_quantize_op.py:335-366 | a disabled quantizer or the passthrough mode changes nothing; only statistics and encoding can change; an encoded quantizer outside training stays as it is; a missing encoding is computed from the parameter |
| TensorQuantizers.ParamQuantizersAfter | TrainingExtensions/torch/src/python/aimet_torch/qc_quantize_op.py:335-366 | the parameter quantizers keep their names |
| TensorQuantizers.QuantizedParams | TrainingExtensions/torch/src/python/aimet_torch/qc_quantize_op.py:335-366 | the quantized parameters keep their names |
| TensorQuantizers.PassthroughParams | TrainingExtensions/torch/src/python/aimet_torch/qc_quantize_op.py:335-366 | in the passthrough mode parameters and their quantizers are unchanged |
| TensorQuantizers.QuantizeEach | TrainingExtensions/torch/src/python/aimet_torch/qc_quantize_op.py:396-416 | the loop over inputs computes the activation specification and adds the observed tensors to the statistics |
| TensorQuantizers.QuantizeParamData | TrainingExtensions/torch/src/python/aimet_torch/qc_quantize_op.py:347-364 | one parameter is handled as the per-parameter specification says |
| TensorQuantizers.StandaloneEach | TrainingExtensions/torch/src/python/aimet_torch/qc_quantize_op.py:151-186 | the standalone loop computes the specified outputs and gathers inputs only in the analysis mode |
| QcQuantizeOp.WrappedModule.constructor | TrainingExtensions/torch/src/python/aimet_torch/qc_quantize_op.py:194-235 | the wrapped module keeps its parameter names, parameters, training flag and forward |
| QcQuantizeOp.OutputStage | TrainingExtensions/torch/src/python/aimet_torch/qc_quantize_op.py:316-326 | the output stage changes only the output quantizer's statistics |
| QcQuantizeOp.ForwardKeepsSettings | TrainingExtensions/torch/src/python/aimet_torch/qc_quantize_op.py:293-326 | forward keeps the mode, the training flag and every quantizer setting; only statistics and parameter encodings change |
| QcQuantizeOp.ForwardErrors | TrainingExtensions/torch/src/python/aimet_torch/qc_quantize_op.py:293-326 | forward fails only with an AssertionError or a TypeError; a non-tensor input is an AssertionError; with the output quantizer off it succeeds exactly on tensor inputs |
| QcQuantizeOp.PassthroughStages | TrainingExtensions/torch/src/python/aimet_torch/qc_quantize_op.py:301-307 | in the passthrough mode the input and parameter stages change nothing |
| QcQuantizeOp.PassthroughOutputEnabled | TrainingExtensions/torch/src/python/aimet_torch/qc_quantize_op.py:316-326 | in the passthrough mode an enabled output quantizer returns the listed tensor outputs unchanged |
| QcQuantizeOp.PassthroughOutput | TrainingExtensions/torch/src/python/aimet_torch/qc_quantize_op.py:316-326 | in the passthrough mode the output stage returns the wrapped output unchanged, or its tensor list unwrapped again |
| QcQuantizeOp.ForwardPassthrough | TrainingExtensions/torch/src/python/aimet_torch/qc_quantize_op.py:293-326 | in the passthrough mode forward is the wrapped module's forward and leaves the state as it was |
| QcQuantizeOp.ForwardAnalysisCollects | TrainingExtensions/torch/src/python/aimet_torch/qc_quantize_op.py:301-304 | in the analysis mode forward adds the float inputs to the input quantizer's statistics and passes the inputs on unchanged |
| QcQuantizeOp.FirstUnusable | TrainingExtensions/torch/src/python/aimet_torch/qc_quantize_op.py:429-443 | the index of the first parameter whose encoding entry is present but empty |
| QcQuantizeOp.FirstUnusableAt | TrainingExtensions/torch/src/python/aimet_torch/qc_quantize_op.py:429-443 | characterises that index from both sides |
| QcQuantizeOp.Frozen | TrainingExtensions/torch/src/python/aimet_torch/qc_quantize_op.py:436-443 | a quantizer with an entry takes the first record's encoding and symmetry and is frozen, and one without keeps its state |
| QcQuantizeOp.FrozenFor | TrainingExtensions/torch/src/python/aimet_torch/qc_quantize_op.py:429-443 | freezing keeps the quantizer names |
| QcQuantizeOp.FrozenIdempotent | TrainingExtensions/torch/src/python/aimet_torch/qc_quantize_op.py:429-443 | freezing twice from the same file is freezing once |
| QcQuantizeOp.ResetEach | TrainingExtensions/torch/src/python/aimet_torch/qc_quantize_op.py:265-268 | every parameter quantizer is reset |
| QcQuantizeOp.QuantizeParamsEach | TrainingExtensions/torch/src/python/aimet_torch/qc_quantize_op.py:335-366 | the loop saves every parameter as its shadow and computes the specified parameters and quantizers |
| QcQuantizeOp.RestoreEach | TrainingExtensions/torch/src/python/aimet_torch/qc_quantize_op.py:328-333 | every parameter takes its saved value again |
| QcQuantizeOp.FreezeEach | TrainingExtensions/torch/src/python/aimet_torch/qc_quantize_op.py:429-443 | the loop passes exactly when no entry is empty, otherwise an IndexError after freezing the parameters before it |
| QcQuantizeOp.QcPostTrainingWrapper.constructor | TrainingExtensions/torch/src/python/aimet_torch/qc_quantize_op.py:194-291 | a new wrapper starts in the passthrough mode and in training, with a disabled input quantizer, an output quantizer enabled as configured and an enabled weight quantizer per parameter |
| QcQuantizeOp.QcPostTrainingWrapper.SetMode | TrainingExtensions/torch/src/python/aimet_torch/qc_quantize_op.py:254-259 | only the mode changes |
| QcQuantizeOp.QcPostTrainingWrapper.SetOutputBw | TrainingExtensions/torch/src/python/aimet_torch/qc_quantize_op.py:246-252 | only the output quantizer's bit-width changes |
| QcQuantizeOp.QcPostTrainingWrapper.ResetEncodings | TrainingExtensions/torch/src/python/aimet_torch/qc_quantize_op.py:261-268 | every quantizer is reset and nothing else changes |
| QcQuantizeOp.QcPostTrainingWrapper.ComputeEncoding | TrainingExtensions/torch/src/python/aimet_torch/qc_quantize_op.py:379-384 | the input and output quantizers compute their encodings and nothing else changes |
| QcQuantizeOp.QcPostTrainingWrapper.ComputeWeightEncodings | TrainingExtensions/torch/src/python/aimet_torch/qc_quantize_op.py:368-377 | the result is the weight quantizer's encoding |
| QcQuantizeOp.QcPostTrainingWrapper.QuantizeActivation | TrainingExtensions/torch/src/python/aimet_torch/qc_quantize_op.py:386-427 | the result is the activation specification and the quantizer gains the observed tensors |
| QcQuantizeOp.QcPostTrainingWrapper.QuantizeDequantizeParams | TrainingExtensions/torch/src/python/aimet_torch/qc_quantize_op.py:335-366 | the shadow is the old parameters, the module takes the quantized parameters, and only the parameter quantizers change |
| QcQuantizeOp.QcPostTrainingWrapper.RestoreShadowParams | TrainingExtensions/torch/src/python/aimet_torch/qc_quantize_op.py:328-333 | the module's parameters become the shadow copies |
| QcQuantizeOp.QcPostTrainingWrapper.Forward | TrainingExtensions/torch/src/python/aimet_torch/qc_quantize_op.py:293-326 | the new state and result are the forward specification, and the module's parameters are restored afterwards |
| QcQuantizeOp.QcPostTrainingWrapper.SetAndFreezeParamEncoding | TrainingExtensions/torch/src/python/aimet_torch/qc_quantize_op.py:429-443 | passes exactly when no entry is empty, otherwise an IndexError; the quantizers before that point are frozen from the file |
| QcQuantizeOp.QcQuantizeStandalone.constructor | TrainingExtensions/torch/src/python/aimet_torch/qc_quantize_op.py:107-124 | a new standalone quantizer starts in passthrough and training, with an enabled output quantizer |
| QcQuantizeOp.QcQuantizeStandalone.SetMode | TrainingExtensions/torch/src/python/aimet_torch/qc_quantize_op.py:143-149 | only the mode changes |
| QcQuantizeOp.QcQuantizeStandalone.SetOutputBw | TrainingExtensions/torch/src/python/aimet_torch/qc_quantize_op.py:135-141 | only the bit-width changes |
| QcQuantizeOp.QcQuantizeStandalone.ComputeEncoding | TrainingExtensions/torch/src/python/aimet_torch/qc_quantize_op.py:461-466 | the output quantizer computes its encoding |
| QcQuantizeOp.QcQuantizeStandalone.Forward | TrainingExtensions/torch/src/python/aimet_torch/qc_quantize_op.py:449-459 | the outputs are the standalone specification and the statistics grow only in the analysis mode |
| TfQuantSim.IsOpQuantizable | TrainingExtensions/tensorflow/src/python/aimet_tensorflow/utils/quantsim.py:159-170 | an op is quantizable exactly when it has an output and its first output's dtype is not excluded; float outputs are quantizable |
| TfQuantSim.GetOpInputIndices | TrainingExtensions/tensorflow/src/python/aimet_tensorflow/utils/quantsim.py:142-156 | succeeds with the given indices exactly when every name is in the graph and the lengths agree; a missing name is a KeyError |
| TfQuantSim.ParamType | TrainingExtensions/tensorflow/src/python/aimet_tensorflow/utils/quantsim.py:96-98 | a BiasAdd holds a bias, anything else a weight |
| TfQuantSim.LastQuantizerIn | TrainingExtensions/tensorflow/src/python/aimet_tensorflow/utils/quantsim.py:68-73 | the result is the fallback or an op of a quantizer type |
| TfQuantSim.LastQuantizerIsLast | TrainingExtensions/tensorflow/src/python/aimet_tensorflow/utils/quantsim.py:68-73 | the last quantizer input wins |
| TfQuantSim.LastQuantizerNone | TrainingExtensions/tensorflow/src/python/aimet_tensorflow/utils/quantsim.py:68-73 | with no quantizer input the fallback is kept |
| TfQuantSim.ParamQuantizerOf | TrainingExtensions/tensorflow/src/python/aimet_tensorflow/utils/quantsim.py:57-75 | a found quantizer is an op of the graph |
| TfQuantSim.ParamQuantizerCases | TrainingExtensions/tensorflow/src/python/aimet_tensorflow/utils/quantsim.py:57-75 | an IndexError exactly when the index is out of range; a direct input is returned as it is; through a StridedSlice or Split the result is a quantizer feeding it, or the slice itself |
| TfQuantSim.GetParamQuantizer | TrainingExtensions/tensorflow/src/python/aimet_tensorflow/utils/quantsim.py:57-75 | the loop computes the specified quantizer |
| TfQuantSim.AddOpToQuantOpsDictEntry | TrainingExtensions/tensorflow/src/python/aimet_tensorflow/utils/quantsim.py:114-139 | only the entry of the op changes: a parameter quantizer joins the set of its type (created if absent), keeping the activation; an activation quantizer replaces the activation and keeps the parameters |
| TfQuantSim.QcQuantizeConsumers | TrainingExtensions/tensorflow/src/python/aimet_tensorflow/utils/quantsim.py:105-109 | exactly the consumers of type QcQuantize, in order |
| TfQuantSim.AddParamKeepsWellTyped | TrainingExtensions/tensorflow/src/python/aimet_tensorflow/utils/quantsim.py:126-134 | adding a quantizer-typed parameter op keeps every dictionary entry well typed |
| TfQuantSim.ParamEntriesWellTyped | TrainingExtensions/tensorflow/src/python/aimet_tensorflow/utils/quantsim.py:93-101 | the parameter loop produces a well-typed dictionary |
| TfQuantSim.ActivationEntriesWellTyped | TrainingExtensions/tensorflow/src/python/aimet_tensorflow/utils/quantsim.py:102-110 | the activation loop keeps it well typed, every activation being a QcQuantize op |
| TfQuantSim.OpToQuantOpsDictWellTyped | TrainingExtensions/tensorflow/src/python/aimet_tensorflow/utils/quantsim.py:78-111 | the whole dictionary holds quantizer-typed parameter ops and QcQuantize activations |
| TfQuantSim.ActivationEntriesKeepParams | TrainingExtensions/tensorflow/src/python/aimet_tensorflow/utils/quantsim.py:102-110 | the activation loop loses no parameter quantizer |
| TfQuantSim.ParamEntriesHold | TrainingExtensions/tensorflow/src/python/aimet_tensorflow/utils/quantsim.py:93-101 | each parameter op's quantizer is recorded under its connected op and parameter type |
| TfQuantSim.ParamQuantizersKept | TrainingExtensions/tensorflow/src/python/aimet_tensorflow/utils/quantsim.py:78-111 | on success, every parameter quantizer found is in the final dictionary under its connected op and type |
| TfQuantSim.ActivationQuantizerCount | TrainingExtensions/tensorflow/src/python/aimet_tensorflow/utils/quantsim.py:100-109 | an activation op whose output does not feed exactly one QcQuantize fails the whole construction |
| TfQuantSim.AddParamEntries | TrainingExtensions/tensorflow/src/python/aimet_tensorflow/utils/quantsim.py:93-101 | the parameter loop computes the specified dictionary or error |
| TfQuantSim.AddActivationEntries | TrainingExtensions/tensorflow/src/python/aimet_tensorflow/utils/quantsim.py:102-110 | the activation loop computes the specified dictionary or error |
| TfQuantSim.CreateOpToQuantOpsDict | TrainingExtensions/tensorflow/src/python/aimet_tensorflow/utils/quantsim.py:78-111 | the construction computes the specified dictionary or error, pairing names with indices as zip does |
| TfQcQuantizeKernel.QuantizeDequantizeAll | TrainingExtensions/tensorflow/src/QcQuantizeOp.cpp:104-107 | each output element is the native quantize-dequantize of the input element |
| TfQcQuantizeKernel.TensorQuantizerOpFacade.constructor | TrainingExtensions/tensorflow/src/QcQuantizeOp.cpp:63-120 | a native quantizer starts with no statistics |
| TfQcQuantizeKernel.TensorQuantizerOpFacade.UpdateStats | TrainingExtensions/tensorflow/src/QcQuantizeOp.cpp:98-103 | the input joins the statistics |
| TfQcQuantizeKernel.TensorQuantizerOpFacade.QuantizeDequantizeInto | TrainingExtensions/tensorflow/src/QcQuantizeOp.cpp:104-107 | the output buffer holds the element-wise quantize-dequantize of the input |
| TfQcQuantizeKernel.CopyInputToOutput | TrainingExtensions/tensorflow/src/QcQuantizeOp.cpp:109-112 | the output buffer is a copy of the input |
| TfQcQuantizeKernel.ModeSpecificAction | TrainingExtensions/tensorflow/src/QcQuantizeOp.cpp:63-120 | an AssertionError exactly for a mode outside the enumeration, with the output untouched; otherwise the output and statistics are those of the mode |
| TfQcQuantizeKernel.Compute | TrainingExtensions/tensorflow/src/QcQuantizeOp.cpp:133-176 | a fresh output whose shape is the input's (as the registered shape function says) and whose length is the input's, filled as the mode says |
| TfQcQuantizeKernel.PassingModes | TrainingExtensions/tensorflow/src/QcQuantizeOp.cpp:98-112 | update-stats and passthrough return the input, and only update-stats records it |
| TfQcQuantizeKernel.QuantizeDequantizeIgnoresStats | TrainingExtensions/tensorflow/src/QcQuantizeOp.cpp:104-107 | quantize-dequantize depends only on the given range, not on the statistics, and leaves them alone |
| TfQcQuantizeKernel.OneShotComposes | TrainingExtensions/tensorflow/src/QcQuantizeOp.cpp:88-107 | one-shot is update-stats followed by quantize-dequantize under the encoding of the updated statistics |

## Left out

- Tensors are plain values (nested sequences of reals for kernels, an opaque tensor type with an integral flag for the PyTorch quantizers). Reshape/flatten details, devices, CUDA copies and floating point are not modelled.
- The numeric kernels are function parameters, not models of their libraries. These are the libpymo scaling and bias-fold kernels, the batchnorm parameter reader (`get_bn_params_for_bias_fold`, cross_layer_equalization.py:575-591) and the native quantize-dequantize and encoding analysis.
- `tensor_quantizer.py` and the libpymo quantizer classes are not part of this model. A tensor quantizer is a value record of its settings, statistics and encoding, so aliasing between quantizer objects is not modelled.
- QcQuantizeOp.QcPostTrainingWrapper.ResetEncodings: reset drops the encoding and statistics whether or not the quantizer is frozen; the freeze flag of the underlying quantizer class is outside the model.
- QcQuantizeOp.QcPostTrainingWrapper.SetAndFreezeParamEncoding: the encoding records are taken as already decoded (`create_encoding_from_dict` is outside the model).
- QcQuantizeOp.QcPostTrainingWrapper.Forward: the wrapped module's forward is a function parameter; in-place `zero_`/`add_` on the parameter data are modelled as exact replacement and restoration.
- QcQuantizeOp.QcPostTrainingWrapper.constructor: it takes the already-mapped round mode and native scheme (`MAP_ROUND_MODE`, `MAP_QUANT_SCHEME`, modelled separately by `RoundModeNamed` and `PymoSchemeOf`).
- The assertion in `tensor_quantizer_factory` (qc_quantize_op.py:95) always holds for the two schemes that reach it, so the factory is `NewQuantizer`.
- The straight-through estimator (`SteGatingFunc`), the RNN helpers and `module_has_weights` concern training gradients and module introspection and are outside the model.
- TfQcQuantizeKernel.ModeSpecificAction: the numeric values of `TensorQuantizerOpMode` are not part of this model; a mode outside the enumeration is `Other(code)`. The kernel's `assert(0)` is modelled as a failure, though it is a no-op in builds with NDEBUG.
- TensorFlow session handling (`save_and_load_graph`), `find_and_replace_relu6_with_relu` and the `scale_model` / `equalize_model` orchestration are left out; they rebuild the session and call the modelled steps in sequence.
- The connected-graph op and the TensorFlow op it stands for are one `Op` value in the model; `convert_conn_graph_ops_to_tf_op` is the identity here.
- Python `isinstance` checks and op-type tests are exact set membership on type names.
- `get_conv_linear_bn_info_dict` only returns the handler's dictionary and is read directly as the `convLinearsWithBn` field.
- TensorQuantizers.Relist: a wrapped module's output is a tensor or a list of values; any other single output (a dict, a string) is a TypeError, where Python would iterate it as a container.
- TfQuantSim.ParamQuantizerOf: indices are natural numbers; Python's negative indexing is not modelled.
- TfQuantSim.AddOpToQuantOpsDictEntry: the in-place update of the dictionary is modelled as a function returning the updated dictionary, which the loops reassign.
- `conn_graph.get_op_from_module_name` is a total function parameter from op names to connected ops, and `OpQuery.get_weight_inputs` is outside the model (its indices are a parameter of the construction).
