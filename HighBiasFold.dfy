/** High-bias fold (`HighBiasFold._refresh_layer_set_info_before_hbf` and
    `HighBiasFold.bias_fold`). After batchnorm fold and cross-layer scaling
    the graph is reloaded, so the pair records and the conv-to-batchnorm
    pairs are first rebound by name to the reloaded ops. Every pair whose
    first layer had a batchnorm folded into it, and whose two layers both
    have a bias, then has its two biases recomputed by the native
    `updateBias` kernel, a function parameter here. */
module HighBiasFold {
  import opened Wrappers
  import opened Graph
  import opened Layout
  import opened ClsSets
  import opened CrossLayerScaling

  /** One entry of `folded_pairs`: a conv and the batchnorm folded into it. */
  datatype FoldedPair = FoldedPair(conv: Op, bn: Op)

  /** `bn_dict` of the refresh: each conv's name mapped to the reloaded op of
      its batchnorm's name, a later pair replacing an earlier one; a
      batchnorm name missing from the name map is a KeyError. */
  function BnDictOf(names: map<string, Op>, folded: seq<FoldedPair>): Result<map<string, Op>>
    decreases |folded|
  {
    if folded == [] then Ok(map[])
    else
      var front := BnDictOf(names, folded[..|folded| - 1]);
      var last := folded[|folded| - 1];
      if front.Err? then front
      else if last.bn.name !in names then Err(KeyError)
      else Ok(front.value[last.conv.name := names[last.bn.name]])
  }

  /** The refresh fails, with KeyError, exactly when some batchnorm name is
      missing from the name map. */
  lemma {:induction false} BnDictOfFails(names: map<string, Op>, folded: seq<FoldedPair>)
    ensures BnDictOf(names, folded).Err? <==> exists k | 0 <= k < |folded| :: folded[k].bn.name !in names
    ensures BnDictOf(names, folded).Err? ==> BnDictOf(names, folded).error == KeyError
    decreases |folded|
  {
    if folded != [] {
      var front := folded[..|folded| - 1];
      assert forall k | 0 <= k < |front| :: front[k] == folded[k];
      BnDictOfFails(names, front);
    }
  }

  /** The batchnorm map holds exactly the convs' names. */
  lemma {:induction false} BnDictOfKeys(names: map<string, Op>, folded: seq<FoldedPair>)
    requires BnDictOf(names, folded).Ok?
    ensures BnDictOf(names, folded).value.Keys == set k | 0 <= k < |folded| :: folded[k].conv.name
    decreases |folded|
  {
    if folded != [] {
      var front := folded[..|folded| - 1];
      assert forall k | 0 <= k < |front| :: front[k] == folded[k];
      BnDictOfKeys(names, front);
      var last := folded[|folded| - 1];
      var front_keys := set k | 0 <= k < |front| :: front[k].conv.name;
      var all_keys := set k | 0 <= k < |folded| :: folded[k].conv.name;
      assert BnDictOf(names, folded).value.Keys == front_keys + {last.conv.name};
      forall c | c in all_keys
        ensures c in front_keys + {last.conv.name}
      {
        var k :| 0 <= k < |folded| && folded[k].conv.name == c;
        if k < |front| {
          assert front[k].conv.name == c;
        }
      }
      forall c | c in front_keys + {last.conv.name}
        ensures c in all_keys
      {
        if c in front_keys {
          var k :| 0 <= k < |front| && front[k].conv.name == c;
          assert folded[k].conv.name == c;
        } else {
          assert folded[|folded| - 1].conv.name == c;
        }
      }
    }
  }

  /** A conv's entry is the op of the batchnorm of its last pair. */
  lemma {:induction false} BnDictOfLast(names: map<string, Op>, folded: seq<FoldedPair>, k: nat)
    requires BnDictOf(names, folded).Ok? && k < |folded|
    requires forall j | k < j < |folded| :: folded[j].conv.name != folded[k].conv.name
    ensures folded[k].bn.name in names
    ensures folded[k].conv.name in BnDictOf(names, folded).value
    ensures BnDictOf(names, folded).value[folded[k].conv.name] == names[folded[k].bn.name]
    decreases |folded|
  {
    var front := folded[..|folded| - 1];
    if k < |front| {
      assert forall j | 0 <= j < |front| :: front[j] == folded[j];
      BnDictOfLast(names, front, k);
    }
  }

  /** `_refresh_layer_set_info_before_hbf`: builds the batchnorm map, then
      rebinds the pair records; a KeyError while building the map comes
      before any record is touched. */
  method RefreshLayerSetInfo(sess: Session, folded: seq<FoldedPair>, infos: seq<ClsSetInfo>)
    returns (r: Result<map<string, Op>>)
    modifies PairObjects(infos)
    ensures r.Err? ==> r.error == KeyError
    ensures BnDictOf(NameMapOf(sess.ops), folded).Err? ==>
      r.Err? && forall p | p in PairObjects(infos) :: p.layer1 == old(p.layer1) && p.layer2 == old(p.layer2)
    ensures BnDictOf(NameMapOf(sess.ops), folded).Ok? ==>
      (r.Ok? <==> forall p | p in PairObjects(infos) ::
         old(p.layer1.name) in NameMapOf(sess.ops) && old(p.layer2.name) in NameMapOf(sess.ops))
    ensures r.Ok? ==>
      r == BnDictOf(NameMapOf(sess.ops), folded) &&
      forall p | p in PairObjects(infos) :: Bound(NameMapOf(sess.ops), p)
  {
    var names := MapOpNamesToOps(sess.ops);
    var bnDict: map<string, Op> := map[];
    for k := 0 to |folded|
      invariant BnDictOf(names, folded[..k]) == Ok(bnDict)
    {
      assert folded[..k + 1][..k] == folded[..k];
      if folded[k].bn.name !in names {
        BnDictOfStaysFailed(names, folded, k + 1);
        return Err(KeyError);
      }
      bnDict := bnDict[folded[k].conv.name := names[folded[k].bn.name]];
    }
    assert folded[..|folded|] == folded;
    var rebound := RebindClsSets(names, infos);
    if rebound.Fail? {
      return Err(rebound.error);
    }
    r := Ok(bnDict);
  }

  /** Once the map fails on a prefix it fails on the whole list. */
  lemma {:induction false} BnDictOfStaysFailed(names: map<string, Op>, folded: seq<FoldedPair>, k: nat)
    requires k <= |folded| && BnDictOf(names, folded[..k]).Err?
    ensures BnDictOf(names, folded).Err?
    decreases |folded| - k
  {
    if k < |folded| {
      assert folded[..k + 1][..k] == folded[..k];
      BnDictOfStaysFailed(names, folded, k + 1);
    } else {
      assert folded[..k] == folded;
    }
  }

  /** `libpymo.BNParamsHighBiasFold`: gamma and beta of the batchnorm. */
  datatype BnParams = BnParams(gamma: seq<real>, beta: seq<real>)

  /** `get_bn_params_for_bias_fold`: reads gamma and beta of a batchnorm op
      and divides them by the scale factor. */
  type BnReader = (Op, ScaleVector) -> BnParams

  /** The first layer's `libpymo.LayerParams`: the relu flag, its bias and
      its weight shape in kernel order. */
  datatype PrevLayer = PrevLayer(activationIsRelu: bool, bias: seq<real>, weightShape: Shape)

  /** The two biases `updateBias` leaves in its structs. */
  datatype FoldedBiases = FoldedBiases(prev: seq<real>, curr: seq<real>)

  /** `libpymo.updateBias`. */
  type BiasUpdate = (PrevLayer, EqualizationParams, BnParams) -> FoldedBiases

  /** `BiasUtils.is_bias_none` negated: the layer has a stored bias. */
  predicate HasBias(params: ParamStore, layer: Op)
  {
    layer.id in params && params[layer.id].bias.Some?
  }

  /** A pair takes part in the fold: its first layer had a batchnorm folded
      into it and both layers have a bias. */
  predicate Folds(params: ParamStore, bnDict: map<string, Op>, p: PairInfo)
    reads p
  {
    p.layer1.name in bnDict && HasBias(params, p.layer1) && HasBias(params, p.layer2)
  }

  /** The biases `updateBias` hands back for a pair that takes part and
      carries a single relu flag: the batchnorm read with the pair's scale
      factor, the first layer as `libpymo.LayerParams` and the second as a
      kernel struct, read in depthwise layout when it is depthwise. */
  function FoldedOf(params: ParamStore, bnDict: map<string, Op>, p: PairInfo,
                    getBn: BnReader, update: BiasUpdate): FoldedBiases
    reads p
    requires ShapesValid(params) && Folds(params, bnDict, p) && p.reluBetween.Flag?
  {
    var bn := getBn(bnDict[p.layer1.name], p.scaleFactor);
    var first := params[p.layer1.id];
    var second := params[p.layer2.id];
    var prev := PrevLayer(p.reluBetween.b, first.bias.value, Permute(ToKernelLayout, first.shape));
    var curr := if p.layer2.opType == Depthwise then ReadDepthwise(second) else ReadConv(second, true);
    update(prev, curr, bn)
  }

  /** The body of the loop of `bias_fold` for one pair record. A pair that
      does not take part is skipped; a relu flag that is a pair of flags
      cannot be assigned to `activationIsRelu` and is a TypeError, raised
      before any write; otherwise both biases are replaced by the kernel's. */
  function FoldPair(params: ParamStore, bnDict: map<string, Op>, p: PairInfo,
                    getBn: BnReader, update: BiasUpdate): (r: (ParamStore, Outcome))
    reads p
    requires ShapesValid(params)
    ensures r.0.Keys == params.Keys && ShapesValid(r.0)
    ensures !Folds(params, bnDict, p) ==> r == (params, Pass)
    ensures r.1.Fail? <==> Folds(params, bnDict, p) && p.reluBetween.FlagPair?
    ensures r.1.Fail? ==> r == (params, Fail(TypeError))
    ensures forall id | id in params ::
      r.0[id].weight == params[id].weight && r.0[id].shape == params[id].shape &&
      r.0[id].bias.Some? == params[id].bias.Some?
    ensures forall id | id in params && id != p.layer1.id && id != p.layer2.id :: r.0[id] == params[id]
    ensures Folds(params, bnDict, p) && p.reluBetween.Flag? ==>
      var biases := FoldedOf(params, bnDict, p, getBn, update);
      r.1 == Pass && r.0[p.layer2.id].bias == Some(biases.curr) &&
      (p.layer1.id != p.layer2.id ==> r.0[p.layer1.id].bias == Some(biases.prev))
  {
    if !Folds(params, bnDict, p) then (params, Pass)
    else if p.reluBetween.FlagPair? then (params, Fail(TypeError))
    else
      var biases := FoldedOf(params, bnDict, p, getBn, update);
      var p1 := SetBias(params, p.layer1.id, biases.prev);
      (SetBias(p1, p.layer2.id, biases.curr), Pass)
  }

  /** All pair records of the set records, in order. */
  function Flatten(infos: seq<ClsSetInfo>): seq<PairInfo>
    decreases |infos|
  {
    if infos == [] then [] else infos[0].pairs + Flatten(infos[1..])
  }

  /** The loop of `bias_fold` over the flattened pair records; a TypeError
      stops it with the earlier writes kept. */
  function FoldAll(params: ParamStore, bnDict: map<string, Op>, pairs: seq<PairInfo>,
                   getBn: BnReader, update: BiasUpdate): (r: (ParamStore, Outcome))
    reads pairs
    requires ShapesValid(params)
    ensures r.0.Keys == params.Keys && ShapesValid(r.0)
    ensures r.1 == Pass || r.1 == Fail(TypeError)
    decreases |pairs|
  {
    if pairs == [] then (params, Pass)
    else
      var first := FoldPair(params, bnDict, pairs[0], getBn, update);
      if first.1.Fail? then first else FoldAll(first.0, bnDict, pairs[1..], getBn, update)
  }

  /** Taking part depends only on the store's keys and which layers have a
      bias, so a fold step does not change it. */
  lemma FoldsStable(params: ParamStore, params': ParamStore, bnDict: map<string, Op>, p: PairInfo)
    requires params'.Keys == params.Keys
    requires forall id | id in params :: params'[id].bias.Some? == params[id].bias.Some?
    ensures Folds(params', bnDict, p) == Folds(params, bnDict, p)
  {
  }

  /** The fold changes biases only: every weight and shape stays, and a
      layer keeps or lacks a bias as before. */
  lemma {:induction false} FoldAllOnlyBiases(params: ParamStore, bnDict: map<string, Op>, pairs: seq<PairInfo>,
                                            getBn: BnReader, update: BiasUpdate)
    requires ShapesValid(params)
    ensures forall id | id in params ::
      var r := FoldAll(params, bnDict, pairs, getBn, update).0;
      r[id].weight == params[id].weight && r[id].shape == params[id].shape &&
      r[id].bias.Some? == params[id].bias.Some?
    decreases |pairs|
  {
    if pairs != [] {
      var first := FoldPair(params, bnDict, pairs[0], getBn, update);
      if first.1.Pass? {
        FoldAllOnlyBiases(first.0, bnDict, pairs[1..], getBn, update);
      }
    }
  }

  /** A layer that is in no pair record keeps its tensors. */
  lemma {:induction false} FoldAllUntouched(params: ParamStore, bnDict: map<string, Op>, pairs: seq<PairInfo>,
                                           getBn: BnReader, update: BiasUpdate, id: OpId)
    requires ShapesValid(params) && id in params
    requires forall k | 0 <= k < |pairs| :: pairs[k].layer1.id != id && pairs[k].layer2.id != id
    ensures FoldAll(params, bnDict, pairs, getBn, update).0[id] == params[id]
    decreases |pairs|
  {
    if pairs != [] {
      var first := FoldPair(params, bnDict, pairs[0], getBn, update);
      if first.1.Pass? {
        FoldAllUntouched(first.0, bnDict, pairs[1..], getBn, update, id);
      }
    }
  }

  /** With no pair taking part — in particular with no batchnorm record at
      all — the fold changes nothing. */
  lemma {:induction false} FoldAllSkipped(params: ParamStore, bnDict: map<string, Op>, pairs: seq<PairInfo>,
                                         getBn: BnReader, update: BiasUpdate)
    requires ShapesValid(params)
    requires forall k | 0 <= k < |pairs| :: !Folds(params, bnDict, pairs[k])
    ensures FoldAll(params, bnDict, pairs, getBn, update) == (params, Pass)
    decreases |pairs|
  {
    if pairs != [] {
      FoldAllSkipped(params, bnDict, pairs[1..], getBn, update);
    }
  }

  /** The fold fails exactly when a pair that takes part carries a pair of
      relu flags. */
  lemma {:induction false} FoldAllFails(params: ParamStore, bnDict: map<string, Op>, pairs: seq<PairInfo>,
                                       getBn: BnReader, update: BiasUpdate)
    requires ShapesValid(params)
    ensures FoldAll(params, bnDict, pairs, getBn, update).1.Fail? <==>
      exists k | 0 <= k < |pairs| :: Folds(params, bnDict, pairs[k]) && pairs[k].reluBetween.FlagPair?
    decreases |pairs|
  {
    if pairs != [] {
      var first := FoldPair(params, bnDict, pairs[0], getBn, update);
      if first.1.Pass? {
        FoldAllFails(first.0, bnDict, pairs[1..], getBn, update);
        forall k | 0 <= k < |pairs|
          ensures Folds(first.0, bnDict, pairs[k]) == Folds(params, bnDict, pairs[k])
        {
          FoldsStable(params, first.0, bnDict, pairs[k]);
        }
        assert forall k | 0 <= k < |pairs[1..]| :: pairs[1..][k] == pairs[k + 1];
        if exists k | 0 <= k < |pairs| :: Folds(params, bnDict, pairs[k]) && pairs[k].reluBetween.FlagPair? {
          var k :| 0 <= k < |pairs| && Folds(params, bnDict, pairs[k]) && pairs[k].reluBetween.FlagPair?;
          assert k != 0;
          assert Folds(first.0, bnDict, pairs[1..][k - 1]) && pairs[1..][k - 1].reluBetween.FlagPair?;
        }
      }
    }
  }

  lemma FlattenFrom(infos: seq<ClsSetInfo>, i: nat)
    requires i < |infos|
    ensures Flatten(infos[i..]) == infos[i].pairs + Flatten(infos[i + 1..])
  {
    assert infos[i..][0] == infos[i] && infos[i..][1..] == infos[i + 1..];
  }

  /** Every pair record listed by `Flatten` is one of the records. */
  lemma {:induction false} FlattenPairs(infos: seq<ClsSetInfo>)
    ensures forall p | p in Flatten(infos) :: p in PairObjects(infos)
    decreases |infos|
  {
    if infos != [] {
      FlattenPairs(infos[1..]);
      forall p | p in Flatten(infos)
        ensures p in PairObjects(infos)
      {
        if p in infos[0].pairs {
          var j :| 0 <= j < |infos[0].pairs| && infos[0].pairs[j] == p;
        } else {
          assert p in Flatten(infos[1..]);
          assert p in PairObjects(infos[1..]);
          var i, j :| 0 <= i < |infos[1..]| && 0 <= j < |infos[1..][i].pairs| && infos[1..][i].pairs[j] == p;
          assert infos[i + 1].pairs[j] == p;
        }
      }
    }
  }

  /** Splitting the records in two: the fold of the second part starts
      from the store the first part leaves, unless the first part failed. */
  lemma {:induction false} FoldAllAppend(params: ParamStore, bnDict: map<string, Op>, a: seq<PairInfo>,
                                        b: seq<PairInfo>, getBn: BnReader, update: BiasUpdate)
    requires ShapesValid(params)
    ensures var x := FoldAll(params, bnDict, a, getBn, update);
      FoldAll(params, bnDict, a + b, getBn, update) ==
        if x.1.Fail? then x else FoldAll(x.0, bnDict, b, getBn, update)
    decreases |a|
  {
    if a == [] {
      assert a + b == b;
    } else {
      assert (a + b)[0] == a[0] && (a + b)[1..] == a[1..] + b;
      var first := FoldPair(params, bnDict, a[0], getBn, update);
      if first.1.Pass? {
        FoldAllAppend(first.0, bnDict, a[1..], b, getBn, update);
      }
    }
  }

  /** A fold that passes, split at record k: the records before k pass,
      record k passes on the store they leave, and the rest goes on from
      there. */
  lemma FoldAllAt(params: ParamStore, bnDict: map<string, Op>, pairs: seq<PairInfo>,
                  getBn: BnReader, update: BiasUpdate, k: nat)
    requires ShapesValid(params) && k < |pairs|
    requires FoldAll(params, bnDict, pairs, getBn, update).1 == Pass
    ensures var x := FoldAll(params, bnDict, pairs[..k], getBn, update);
      var y := FoldPair(x.0, bnDict, pairs[k], getBn, update);
      x.1 == Pass && y.1 == Pass &&
      FoldAll(params, bnDict, pairs, getBn, update) == FoldAll(y.0, bnDict, pairs[k + 1..], getBn, update)
  {
    assert pairs[..k] + pairs[k..] == pairs;
    FoldAllAppend(params, bnDict, pairs[..k], pairs[k..], getBn, update);
    assert pairs[k..][0] == pairs[k] && pairs[k..][1..] == pairs[k + 1..];
  }

  /** A layer that no record after k names keeps, through the records after
      k, the tensors it has. */
  lemma FoldAllUntouchedAfter(params: ParamStore, bnDict: map<string, Op>, pairs: seq<PairInfo>,
                              getBn: BnReader, update: BiasUpdate, k: nat, id: OpId)
    requires ShapesValid(params) && k < |pairs| && id in params
    requires forall j | k < j < |pairs| :: pairs[j].layer1.id != id && pairs[j].layer2.id != id
    ensures FoldAll(params, bnDict, pairs[k + 1..], getBn, update).0[id] == params[id]
  {
    var rest := pairs[k + 1..];
    forall j | 0 <= j < |rest|
      ensures rest[j].layer1.id != id && rest[j].layer2.id != id
    {
      assert rest[j] == pairs[k + 1 + j];
    }
    FoldAllUntouched(params, bnDict, rest, getBn, update, id);
  }

  /** The last pair record that names a layer decides its bias: when the
      fold passes and record k takes part, a layer of record k that no later
      record names ends with the bias `updateBias` computes for record k on
      the store the records before k leave. */
  lemma FoldAllLastWrite(params: ParamStore, bnDict: map<string, Op>, pairs: seq<PairInfo>,
                         getBn: BnReader, update: BiasUpdate, k: nat)
    requires ShapesValid(params) && k < |pairs| && Folds(params, bnDict, pairs[k])
    requires FoldAll(params, bnDict, pairs, getBn, update).1 == Pass
    ensures var mid := FoldAll(params, bnDict, pairs[..k], getBn, update).0;
      Folds(mid, bnDict, pairs[k]) && pairs[k].reluBetween.Flag?
    ensures var mid := FoldAll(params, bnDict, pairs[..k], getBn, update).0;
      var fin := FoldAll(params, bnDict, pairs, getBn, update).0;
      var id := pairs[k].layer2.id;
      (forall j | k < j < |pairs| :: pairs[j].layer1.id != id && pairs[j].layer2.id != id) ==>
        fin[id].bias == Some(FoldedOf(mid, bnDict, pairs[k], getBn, update).curr)
    ensures var mid := FoldAll(params, bnDict, pairs[..k], getBn, update).0;
      var fin := FoldAll(params, bnDict, pairs, getBn, update).0;
      var id := pairs[k].layer1.id;
      id != pairs[k].layer2.id &&
      (forall j | k < j < |pairs| :: pairs[j].layer1.id != id && pairs[j].layer2.id != id) ==>
        fin[id].bias == Some(FoldedOf(mid, bnDict, pairs[k], getBn, update).prev)
  {
    var p := pairs[k];
    FoldAllFails(params, bnDict, pairs, getBn, update);
    assert !(Folds(params, bnDict, pairs[k]) && pairs[k].reluBetween.FlagPair?);
    var mid := FoldAll(params, bnDict, pairs[..k], getBn, update).0;
    FoldAllOnlyBiases(params, bnDict, pairs[..k], getBn, update);
    FoldsStable(params, mid, bnDict, p);
    FoldAllAt(params, bnDict, pairs, getBn, update, k);
    var y := FoldPair(mid, bnDict, p, getBn, update).0;
    if forall j | k < j < |pairs| :: pairs[j].layer1.id != p.layer2.id && pairs[j].layer2.id != p.layer2.id {
      FoldAllUntouchedAfter(y, bnDict, pairs, getBn, update, k, p.layer2.id);
    }
    if forall j | k < j < |pairs| :: pairs[j].layer1.id != p.layer1.id && pairs[j].layer2.id != p.layer1.id {
      FoldAllUntouchedAfter(y, bnDict, pairs, getBn, update, k, p.layer1.id);
    }
  }

  /** The loop body of `bias_fold` for one pair record, on the session. */
  method FoldPairRecord(sess: Session, bnDict: map<string, Op>, p: PairInfo,
                        getBn: BnReader, update: BiasUpdate) returns (r: Outcome)
    requires ShapesValid(sess.params)
    modifies sess
    ensures sess.ops == old(sess.ops)
    ensures (sess.params, r) == FoldPair(old(sess.params), bnDict, p, getBn, update)
  {
    r := Pass;
    if p.layer1.name in bnDict {
      if !HasBias(sess.params, p.layer1) || !HasBias(sess.params, p.layer2) {
        return;
      }
      var bn := getBn(bnDict[p.layer1.name], p.scaleFactor);
      if p.reluBetween.FlagPair? {
        return Fail(TypeError);
      }
      var first := sess.params[p.layer1.id];
      var prev := PrevLayer(p.reluBetween.b, first.bias.value, Permute(ToKernelLayout, first.shape));
      var second := sess.params[p.layer2.id];
      var curr;
      if p.layer2.opType == Depthwise {
        curr := ReadDepthwise(second);
      } else {
        curr := ReadConv(second, true);
      }
      var biases := update(prev, curr, bn);
      sess.params := SetBias(sess.params, p.layer1.id, biases.prev);
      sess.params := SetBias(sess.params, p.layer2.id, biases.curr);
    }
  }

  /** The inner loop of `bias_fold`, over the pair records of one set. */
  method FoldPairRecords(sess: Session, bnDict: map<string, Op>, pairs: seq<PairInfo>,
                         getBn: BnReader, update: BiasUpdate) returns (r: Outcome)
    requires ShapesValid(sess.params)
    modifies sess
    ensures sess.ops == old(sess.ops)
    ensures (sess.params, r) == FoldAll(old(sess.params), bnDict, pairs, getBn, update)
  {
    ghost var whole := FoldAll(sess.params, bnDict, pairs, getBn, update);
    assert pairs[0..] == pairs;
    for j := 0 to |pairs|
      invariant sess.ops == old(sess.ops) && ShapesValid(sess.params)
      invariant whole == FoldAll(sess.params, bnDict, pairs[j..], getBn, update)
    {
      assert pairs[j..][0] == pairs[j] && pairs[j..][1..] == pairs[j + 1..];
      ghost var x := FoldPair(sess.params, bnDict, pairs[j], getBn, update);
      ghost var later := FoldAll(x.0, bnDict, pairs[j + 1..], getBn, update);
      var step := FoldPairRecord(sess, bnDict, pairs[j], getBn, update);
      assert later == FoldAll(sess.params, bnDict, pairs[j + 1..], getBn, update);
      if step.Fail? {
        return step;
      }
    }
    assert pairs[|pairs|..] == [];
    r := Pass;
  }

  /** `bias_fold`: refreshes the records, returns at once when there is no
      batchnorm record, and otherwise folds pair by pair. A KeyError of the
      refresh leaves the tensors as they were. */
  method BiasFold(sess: Session, folded: seq<FoldedPair>, infos: seq<ClsSetInfo>,
                  getBn: BnReader, update: BiasUpdate) returns (r: Outcome)
    requires ShapesValid(sess.params)
    modifies sess, PairObjects(infos)
    ensures sess.ops == old(sess.ops)
    ensures r == Fail(KeyError) ==> sess.params == old(sess.params)
    ensures r != Fail(KeyError) <==>
      BnDictOf(NameMapOf(sess.ops), folded).Ok? &&
      forall p | p in PairObjects(infos) ::
        old(p.layer1.name) in NameMapOf(sess.ops) && old(p.layer2.name) in NameMapOf(sess.ops)
    ensures r != Fail(KeyError) ==>
      (forall p | p in PairObjects(infos) :: Bound(NameMapOf(sess.ops), p)) &&
      (sess.params, r) ==
        FoldAll(old(sess.params), BnDictOf(NameMapOf(sess.ops), folded).value, Flatten(infos), getBn, update)
    ensures r != Fail(KeyError) && BnDictOf(NameMapOf(sess.ops), folded).value == map[] ==>
      sess.params == old(sess.params) && r == Pass
  {
    var refreshed := RefreshLayerSetInfo(sess, folded, infos);
    if refreshed.Err? {
      return Fail(refreshed.error);
    }
    var bnDict := refreshed.value;
    if bnDict == map[] {
      FoldAllSkipped(sess.params, bnDict, Flatten(infos), getBn, update);
      return Pass;
    }
    r := FoldSetRecords(sess, bnDict, infos, getBn, update);
  }

  /** The outer loop of `bias_fold`, over the set records. */
  method FoldSetRecords(sess: Session, bnDict: map<string, Op>, infos: seq<ClsSetInfo>,
                        getBn: BnReader, update: BiasUpdate) returns (r: Outcome)
    requires ShapesValid(sess.params)
    modifies sess
    ensures sess.ops == old(sess.ops)
    ensures (sess.params, r) == FoldAll(old(sess.params), bnDict, Flatten(infos), getBn, update)
  {
    ghost var whole := FoldAll(sess.params, bnDict, Flatten(infos), getBn, update);
    assert infos[0..] == infos;
    for i := 0 to |infos|
      invariant sess.ops == old(sess.ops) && ShapesValid(sess.params)
      invariant whole == FoldAll(sess.params, bnDict, Flatten(infos[i..]), getBn, update)
    {
      // the fold of this set's records, and of the later ones after it,
      // taken before the records' tensors change
      ghost var x := FoldAll(sess.params, bnDict, infos[i].pairs, getBn, update);
      ghost var later := FoldAll(x.0, bnDict, Flatten(infos[i + 1..]), getBn, update);
      FlattenFrom(infos, i);
      FoldAllAppend(sess.params, bnDict, infos[i].pairs, Flatten(infos[i + 1..]), getBn, update);
      var step := FoldPairRecords(sess, bnDict, infos[i].pairs, getBn, update);
      assert (sess.params, step) == x;
      assert later == FoldAll(sess.params, bnDict, Flatten(infos[i + 1..]), getBn, update);
      if step.Fail? {
        return step;
      }
    }
    assert infos[|infos|..] == [];
    r := Pass;
  }
}
