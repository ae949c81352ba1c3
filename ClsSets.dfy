/** CLS sets of cross-layer equalization: turning a layer group into pairs
    and depthwise triplets (`convert_layer_group_to_cls_sets`), the relu flags
    per set (`is_relu_activation_present_in_cls_sets`), the `ClsSetInfo`
    records that bind sets, scale factors and flags
    (`create_cls_set_info_list`), and the by-name rebinding of those records
    after a graph reload (`map_op_names_to_ops`,
    `ClsSetInfo.map_cls_sets_to_new_session`). */
module ClsSets {
  import opened Wrappers
  import opened Graph
  import opened LayerGroups

  /** A pair of convolutions, or a conv / depthwise / conv triplet. */
  datatype ClsSet = Pair(first: Op, second: Op) | Triplet(first: Op, second: Op, third: Op)
  {
    function Last(): Op
    {
      if Pair? then second else third
    }

    /** The layers after the first, in order. */
    function Rest(): seq<Op>
    {
      if Pair? then [second] else [second, third]
    }
  }

  predicate IsDepthwise(op: Op)
  {
    op.opType == Depthwise
  }

  function Prepend(sets: seq<ClsSet>, r: Result<seq<ClsSet>>): Result<seq<ClsSet>>
  {
    match r
    case Ok(t) => Ok(sets + t)
    case Err(e) => Err(e)
  }

  lemma PrependAssoc(a: seq<ClsSet>, b: seq<ClsSet>, r: Result<seq<ClsSet>>)
    ensures Prepend(a, Prepend(b, r)) == Prepend(a + b, r)
    ensures Prepend([], r) == r
  {
    if r.Ok? {
      assert a + (b + r.value) == (a + b) + r.value;
      assert [] + r.value == r.value;
    }
  }

  /** Reference definition of the pairing walk: `prev` is the layer to scale
      next and `rest` the layers still in the group. A depthwise layer takes
      the following layer with it; none left is the `pop(0)` IndexError. */
  function ChainFrom(prev: Op, rest: seq<Op>): Result<seq<ClsSet>>
    decreases |rest|
  {
    if rest == [] then Ok([])
    else if IsDepthwise(rest[0]) then
      if |rest| < 2 then Err(IndexError)
      else Prepend([Triplet(prev, rest[0], rest[1])], ChainFrom(rest[1], rest[2..]))
    else Prepend([Pair(prev, rest[0])], ChainFrom(rest[0], rest[1..]))
  }

  /** The CLS sets of a whole group; an empty group fails on the first pop. */
  function ClsSetsOf(layers: seq<Op>): Result<seq<ClsSet>>
  {
    if layers == [] then Err(IndexError) else ChainFrom(layers[0], layers[1..])
  }

  /** The layers the sets cover after the first one. */
  function Tails(sets: seq<ClsSet>): seq<Op>
  {
    if sets == [] then [] else sets[0].Rest() + Tails(sets[1..])
  }

  /** Consecutive sets share a layer: each begins where the previous ended. */
  predicate Chained(first: Op, sets: seq<ClsSet>)
  {
    (|sets| > 0 ==> sets[0].first == first) &&
    (forall i | 0 < i < |sets| :: sets[i].first == sets[i - 1].Last())
  }

  /** A set is a triplet exactly when its middle layer is depthwise. */
  predicate TripletsAtDepthwise(sets: seq<ClsSet>)
  {
    forall i | 0 <= i < |sets| :: sets[i].Triplet? <==> IsDepthwise(sets[i].second)
  }

  lemma {:induction false} ChainFromShape(prev: Op, rest: seq<Op>, sets: seq<ClsSet>)
    requires ChainFrom(prev, rest) == Ok(sets)
    ensures Chained(prev, sets) && TripletsAtDepthwise(sets)
    ensures Tails(sets) == rest
    ensures |sets| > 0 <==> rest != []
    decreases |rest|
  {
    if rest == [] {
    } else if IsDepthwise(rest[0]) {
      var t := ChainFrom(rest[1], rest[2..]).value;
      ChainFromShape(rest[1], rest[2..], t);
      assert sets == [Triplet(prev, rest[0], rest[1])] + t;
      assert sets[1..] == t;
      assert rest == [rest[0], rest[1]] + rest[2..];
    } else {
      var t := ChainFrom(rest[0], rest[1..]).value;
      ChainFromShape(rest[0], rest[1..], t);
      assert sets == [Pair(prev, rest[0])] + t;
      assert sets[1..] == t;
      assert rest == [rest[0]] + rest[1..];
    }
  }

  /** A successful conversion chains its sets, puts a triplet exactly where
      the middle layer is depthwise and covers the group layer for layer; the
      group `[c0, c1]` already gives one set. */
  lemma ClsSetsShape(layers: seq<Op>, sets: seq<ClsSet>)
    requires ClsSetsOf(layers) == Ok(sets)
    ensures layers != [] && Chained(layers[0], sets) && TripletsAtDepthwise(sets)
    ensures [layers[0]] + Tails(sets) == layers
    ensures |sets| > 0 <==> |layers| > 1
  {
    ChainFromShape(layers[0], layers[1..], sets);
  }

  lemma {:induction false} ChainFromFailure(prev: Op, rest: seq<Op>)
    requires ChainFrom(prev, rest).Err?
    ensures |rest| > 0 && IsDepthwise(rest[|rest| - 1])
    ensures ChainFrom(prev, rest).error == IndexError
    decreases |rest|
  {
    if IsDepthwise(rest[0]) && |rest| >= 2 {
      ChainFromFailure(rest[1], rest[2..]);
      assert rest[2..][|rest[2..]| - 1] == rest[|rest| - 1];
    } else if !IsDepthwise(rest[0]) {
      ChainFromFailure(rest[0], rest[1..]);
      assert rest[1..][|rest[1..]| - 1] == rest[|rest| - 1];
    }
  }

  /** The conversion fails (IndexError) only on an empty group or on a group
      whose last layer is depthwise; any other group converts. */
  lemma ClsSetsFailure(layers: seq<Op>)
    ensures ClsSetsOf(layers).Err? ==>
      ClsSetsOf(layers).error == IndexError &&
      (layers == [] || (|layers| > 1 && IsDepthwise(layers[|layers| - 1])))
    ensures layers != [] && !IsDepthwise(layers[|layers| - 1]) ==> ClsSetsOf(layers).Ok?
  {
    if layers != [] && ClsSetsOf(layers).Err? {
      ChainFromFailure(layers[0], layers[1..]);
      assert layers[1..][|layers[1..]| - 1] == layers[|layers| - 1];
    }
  }

  /** `convert_layer_group_to_cls_sets`: pops the group from the front; the
      group object is emptied whether or not the conversion succeeds. */
  method ConvertLayerGroupToClsSets(group: Group) returns (r: Result<seq<ClsSet>>)
    modifies group
    ensures group.layers == []
    ensures r == ClsSetsOf(old(group.layers))
  {
    if |group.layers| == 0 {
      return Err(IndexError);
    }
    var clsSets: seq<ClsSet> := [];
    var prev := group.layers[0];
    group.layers := group.layers[1..];
    PrependAssoc([], [], ChainFrom(prev, group.layers));
    while |group.layers| > 0
      invariant ClsSetsOf(old(group.layers)) == Prepend(clsSets, ChainFrom(prev, group.layers))
      decreases |group.layers|
    {
      var next := group.layers[0];
      group.layers := group.layers[1..];
      if IsDepthwise(next) {
        if |group.layers| == 0 {
          return Err(IndexError);
        }
        var pointwise := group.layers[0];
        group.layers := group.layers[1..];
        PrependAssoc(clsSets, [Triplet(prev, next, pointwise)], ChainFrom(pointwise, group.layers));
        clsSets := clsSets + [Triplet(prev, next, pointwise)];
        prev := pointwise;
      } else {
        PrependAssoc(clsSets, [Pair(prev, next)], ChainFrom(next, group.layers));
        clsSets := clsSets + [Pair(prev, next)];
        prev := next;
      }
    }
    assert clsSets + [] == clsSets;
    r := Ok(clsSets);
  }

  /** Relu flags of one set: a single flag for a pair, two for a triplet. */
  datatype ReluFlag = Flag(b: bool) | FlagPair(b1: bool, b2: bool)

  /** `is_relu_activation_present_in_cls_sets`: one flag per set, asking the
      relu test (`does_conv_have_relu_activation`, not part of this model)
      about every layer of the set but the last. */
  method ReluFlagsOf(sets: seq<ClsSet>, hasRelu: Op -> bool) returns (flags: seq<ReluFlag>)
    ensures |flags| == |sets|
    ensures forall i | 0 <= i < |sets| && sets[i].Pair? :: flags[i] == Flag(hasRelu(sets[i].first))
    ensures forall i | 0 <= i < |sets| && sets[i].Triplet? ::
      flags[i] == FlagPair(hasRelu(sets[i].first), hasRelu(sets[i].second))
  {
    flags := [];
    for i := 0 to |sets|
      invariant |flags| == i
      invariant forall k | 0 <= k < i && sets[k].Pair? :: flags[k] == Flag(hasRelu(sets[k].first))
      invariant forall k | 0 <= k < i && sets[k].Triplet? ::
        flags[k] == FlagPair(hasRelu(sets[k].first), hasRelu(sets[k].second))
    {
      var flag := if sets[i].Pair? then Flag(hasRelu(sets[i].first))
                  else FlagPair(hasRelu(sets[i].first), hasRelu(sets[i].second));
      flags := flags + [flag];
    }
  }

  /** A per-channel scale vector returned by the numeric kernel. */
  type ScaleVector = seq<real>

  /** One scale vector for a pair, a tuple of two for a triplet. */
  datatype ScaleFactor = Single(s: ScaleVector) | Double(s12: ScaleVector, s23: ScaleVector)

  /** `ClsSetInfo.ClsSetLayerPairInfo`: two layers scaled together. The
      layers are rebound in place after a graph reload. */
  class PairInfo {
    var layer1: Op
    var layer2: Op
    const scaleFactor: ScaleVector
    const reluBetween: ReluFlag

    constructor (layer1: Op, layer2: Op, scaleFactor: ScaleVector, reluBetween: ReluFlag)
      ensures this.layer1 == layer1 && this.layer2 == layer2
      ensures this.scaleFactor == scaleFactor && this.reluBetween == reluBetween
    {
      this.layer1 := layer1;
      this.layer2 := layer2;
      this.scaleFactor := scaleFactor;
      this.reluBetween := reluBetween;
    }
  }

  /** `ClsSetInfo`: the list of one or two pair records of a set. */
  datatype ClsSetInfo = ClsSetInfo(pairs: seq<PairInfo>)

  /** The pair records of a set at index i are well formed for the inputs. */
  predicate InfoFits(info: ClsSetInfo, cls: ClsSet, factor: ScaleFactor, flag: ReluFlag)
    reads info.pairs
  {
    if factor.Double? then
      cls.Triplet? && flag.FlagPair? && |info.pairs| == 2 &&
      info.pairs[0].layer1 == cls.first && info.pairs[0].layer2 == cls.second &&
      info.pairs[0].scaleFactor == factor.s12 && info.pairs[0].reluBetween == Flag(flag.b1) &&
      info.pairs[1].layer1 == cls.second && info.pairs[1].layer2 == cls.third &&
      info.pairs[1].scaleFactor == factor.s23 && info.pairs[1].reluBetween == Flag(flag.b2)
    else
      |info.pairs| == 1 &&
      info.pairs[0].layer1 == cls.first && info.pairs[0].layer2 == cls.second &&
      info.pairs[0].scaleFactor == factor.s && info.pairs[0].reluBetween == flag
  }

  /** The assertions of `create_cls_set_info_list` that a tuple of scale
      factors comes with a triplet and a pair of flags. */
  predicate ConsistentAt(cls: ClsSet, factor: ScaleFactor, flag: ReluFlag)
  {
    factor.Double? ==> cls.Triplet? && flag.FlagPair?
  }

  /** The error at a set whose tuple of scale factors does not fit: the
      `len(cls_set) == 3` assertion fails for a pair; for a triplet, taking
      `len` of a single bool flag is a TypeError. */
  function ErrorAt(cls: ClsSet, factor: ScaleFactor, flag: ReluFlag): (e: Error)
    requires !ConsistentAt(cls, factor, flag)
    ensures e == AssertionError <==> !cls.Triplet?
    ensures e == TypeError <==> cls.Triplet? && flag.Flag?
  {
    if !cls.Triplet? then AssertionError else TypeError
  }

  /** `create_cls_set_info_list`: binds the three lists index by index,
      failing with AssertionError when their lengths differ, and otherwise
      at the first set whose tuple of scale factors does not fit, with the
      error `ErrorAt` names. */
  method CreateClsSetInfoList(sets: seq<ClsSet>, factors: seq<ScaleFactor>, flags: seq<ReluFlag>)
    returns (r: Result<seq<ClsSetInfo>>)
    ensures r.Err? <==>
      !(|sets| == |factors| == |flags|) ||
      exists i | 0 <= i < |sets| :: !ConsistentAt(sets[i], factors[i], flags[i])
    ensures !(|sets| == |factors| == |flags|) ==> r == Err(AssertionError)
    ensures r.Err? && |sets| == |factors| == |flags| ==>
      exists i | 0 <= i < |sets| ::
        (forall k | 0 <= k < i :: ConsistentAt(sets[k], factors[k], flags[k])) &&
        !ConsistentAt(sets[i], factors[i], flags[i]) && r.error == ErrorAt(sets[i], factors[i], flags[i])
    ensures r.Ok? ==> |r.value| == |sets|
    ensures r.Ok? ==> forall i | 0 <= i < |sets| :: InfoFits(r.value[i], sets[i], factors[i], flags[i])
  {
    if !(|sets| == |factors| == |flags|) {
      return Err(AssertionError);
    }
    var infos: seq<ClsSetInfo> := [];
    for i := 0 to |sets|
      invariant |infos| == i
      invariant forall k | 0 <= k < i :: ConsistentAt(sets[k], factors[k], flags[k])
      invariant forall k | 0 <= k < i :: InfoFits(infos[k], sets[k], factors[k], flags[k])
    {
      var info;
      if factors[i].Double? {
        if !sets[i].Triplet? {
          return Err(AssertionError);
        }
        if !flags[i].FlagPair? {
          return Err(TypeError);
        }
        var p1 := new PairInfo(sets[i].first, sets[i].second, factors[i].s12, Flag(flags[i].b1));
        var p2 := new PairInfo(sets[i].second, sets[i].third, factors[i].s23, Flag(flags[i].b2));
        info := ClsSetInfo([p1, p2]);
      } else {
        var p := new PairInfo(sets[i].first, sets[i].second, factors[i].s, flags[i]);
        info := ClsSetInfo([p]);
      }
      infos := infos + [info];
    }
    r := Ok(infos);
  }

  /** Types whose ops the name map keeps for high-bias fold. */
  predicate KeptForRebinding(t: string)
  {
    t == Conv2D || t == Depthwise || t == FusedBatchNormV3
  }

  /** The name map of a list of ops: kept ops only, a later op replacing an
      earlier one of the same name. */
  function NameMapOf(ops: seq<Op>): (m: map<string, Op>)
    ensures forall k | 0 <= k < |ops| && KeptForRebinding(ops[k].opType) :: ops[k].name in m
    ensures forall n | n in m :: m[n].name == n && KeptForRebinding(m[n].opType) && m[n] in ops
    decreases |ops|
  {
    if ops == [] then map[]
    else
      var m := NameMapOf(ops[..|ops| - 1]);
      var last := ops[|ops| - 1];
      assert forall k | 0 <= k < |ops| - 1 :: ops[..|ops| - 1][k] == ops[k];
      if KeptForRebinding(last.opType) then m[last.name := last] else m
  }

  /** The op a name maps to is the last kept op of that name. */
  lemma {:induction false} NameMapOfLast(ops: seq<Op>, k: nat)
    requires k < |ops| && KeptForRebinding(ops[k].opType)
    requires forall j | k < j < |ops| && KeptForRebinding(ops[j].opType) :: ops[j].name != ops[k].name
    ensures NameMapOf(ops)[ops[k].name] == ops[k]
    decreases |ops|
  {
    if k < |ops| - 1 {
      var front := ops[..|ops| - 1];
      assert front[k] == ops[k];
      assert forall j | k < j < |front| :: front[j] == ops[j];
      NameMapOfLast(front, k);
    }
  }

  /** `map_op_names_to_ops`: a name-keyed map of the reloaded graph's conv,
      depthwise and batchnorm ops. */
  method MapOpNamesToOps(ops: seq<Op>) returns (m: map<string, Op>)
    ensures m == NameMapOf(ops)
  {
    m := map[];
    for k := 0 to |ops|
      invariant m == NameMapOf(ops[..k])
    {
      assert ops[..k + 1][..k] == ops[..k];
      if KeptForRebinding(ops[k].opType) {
        m := m[ops[k].name := ops[k]];
      }
    }
    assert ops[..|ops|] == ops;
  }

  /** All pair records of a list of set records. */
  function PairObjects(infos: seq<ClsSetInfo>): set<PairInfo>
  {
    set i, j | 0 <= i < |infos| && 0 <= j < |infos[i].pairs| :: infos[i].pairs[j]
  }

  /** A pair record whose layers are the map's ops of their names. */
  predicate Bound(dict: map<string, Op>, p: PairInfo)
    reads p
  {
    p.layer1.name in dict && p.layer1 == dict[p.layer1.name] &&
    p.layer2.name in dict && p.layer2 == dict[p.layer2.name]
  }

  /** `ClsSetInfo.map_cls_sets_to_new_session`: replaces every `layer1` and
      `layer2` by the op of the same name; a name missing from the map is a
      KeyError, and the records before it stay rebound. */
  method RebindClsSets(dict: map<string, Op>, infos: seq<ClsSetInfo>) returns (r: Outcome)
    requires forall n | n in dict :: dict[n].name == n
    modifies PairObjects(infos)
    ensures forall p | p in PairObjects(infos) ::
      p.layer1.name == old(p.layer1.name) && p.layer2.name == old(p.layer2.name)
    ensures r.Pass? <==> forall p | p in PairObjects(infos) ::
      old(p.layer1.name) in dict && old(p.layer2.name) in dict
    ensures r.Pass? ==> forall p | p in PairObjects(infos) :: Bound(dict, p)
    ensures r.Fail? ==> r.error == KeyError
    ensures r.Fail? ==>
      exists a, b | 0 <= a < |infos| && 0 <= b < |infos[a].pairs| ::
        (infos[a].pairs[b].layer1.name !in dict || infos[a].pairs[b].layer2.name !in dict) &&
        (forall a', b' | 0 <= a' < a && 0 <= b' < |infos[a'].pairs| :: Bound(dict, infos[a'].pairs[b'])) &&
        (forall b' | 0 <= b' < b :: Bound(dict, infos[a].pairs[b']))
  {
    for i := 0 to |infos|
      invariant forall p | p in PairObjects(infos) ::
        p.layer1.name == old(p.layer1.name) && p.layer2.name == old(p.layer2.name)
      invariant forall a, b | 0 <= a < i && 0 <= b < |infos[a].pairs| :: Bound(dict, infos[a].pairs[b])
    {
      var pairs := infos[i].pairs;
      for j := 0 to |pairs|
        invariant forall p | p in PairObjects(infos) ::
          p.layer1.name == old(p.layer1.name) && p.layer2.name == old(p.layer2.name)
        invariant forall a, b | 0 <= a < i && 0 <= b < |infos[a].pairs| :: Bound(dict, infos[a].pairs[b])
        invariant forall b | 0 <= b < j :: Bound(dict, pairs[b])
      {
        var p := pairs[j];
        assert p in PairObjects(infos);
        if p.layer1.name !in dict {
          return Fail(KeyError);
        }
        p.layer1 := dict[p.layer1.name];
        if p.layer2.name !in dict {
          return Fail(KeyError);
        }
        p.layer2 := dict[p.layer2.name];
      }
    }
    forall p | p in PairObjects(infos)
      ensures Bound(dict, p)
    {
      var a, b :| 0 <= a < |infos| && 0 <= b < |infos[a].pairs| && p == infos[a].pairs[b];
    }
    r := Pass;
  }
}
