/** Layer-group search of cross-layer equalization
    (`GraphSearchUtils.find_downstream_layer_groups_to_scale` and
    `find_layer_groups_to_scale_as_conn_ops`).

    A depth-first walk collects runs of Conv2D/depthwise ops. The run being
    built is a `Group` object that a call shares with the calls it makes for
    its consumers whenever the run is non-empty, exactly as the source passes
    its `current_group` list by reference; a call that receives no run or an
    empty one, or that closes the run at a terminating op, starts a new
    object. Groups already recorded are the same objects, so a later append
    through a shared reference also extends a recorded group. */
module LayerGroups {
  import opened Wrappers
  import opened Graph

  /** A mutable list of layers (`current_group`). */
  class Group {
    var layers: seq<Op>

    constructor ()
      ensures layers == []
    {
      layers := [];
    }
  }

  /** Op types that keep the current group open. */
  predicate PassesThrough(t: string)
  {
    t in [Conv2D, Depthwise, "Relu", "PReLU", "Pad", "Identity"]
  }

  predicate NoDup(s: seq<OpId>)
  {
    forall i, j | 0 <= i < j < |s| :: s[i] != s[j]
  }

  /** Every layer of the group is a Conv2D/depthwise op of `g`. */
  ghost predicate ConvLayersOf(g: OpGraph, grp: Group)
    reads grp
  {
    forall k | 0 <= k < |grp.layers| ::
      grp.layers[k].id in g && g[grp.layers[k].id] == grp.layers[k] &&
      IsConvType(grp.layers[k].opType)
  }

  /** Every recorded group is longer than one and holds only conv layers. */
  ghost predicate GroupsValid(g: OpGraph, groups: seq<Group>)
    reads groups
  {
    forall k | 0 <= k < |groups| :: |groups[k].layers| > 1 && ConvLayersOf(g, groups[k])
  }

  /** `layers in layer_groups`: Python list membership compares contents. */
  predicate Recorded(groups: seq<Group>, layers: seq<Op>)
    reads groups
  {
    exists k | 0 <= k < |groups| :: groups[k].layers == layers
  }

  /** Expanding an unvisited op strictly shrinks the set of unvisited ops,
      which is what makes the walk terminate. */
  lemma UnvisitedShrinks(keys: set<OpId>, opId: OpId, visited: seq<OpId>, visited': seq<OpId>)
    requires opId in keys && opId !in visited
    requires visited + [opId] <= visited'
    ensures (keys - (set v | v in visited')) < (keys - (set v | v in visited))
  {
    forall v | v in visited
      ensures v in visited'
    {
      var j :| 0 <= j < |visited| && visited[j] == v;
      assert (visited + [opId])[j] == visited'[j];
    }
    assert (visited + [opId])[|visited|] == visited'[|visited|];
    assert opId in keys - (set v | v in visited);
    assert opId !in keys - (set v | v in visited');
  }

  lemma VisitedGrowth(keys: set<OpId>, visited: seq<OpId>, visited': seq<OpId>)
    requires visited <= visited'
    ensures (keys - (set v | v in visited')) <= (keys - (set v | v in visited))
  {
    forall v | v in visited
      ensures v in visited'
    {
      var j :| 0 <= j < |visited| && visited[j] == v;
      assert visited[j] == visited'[j];
    }
  }

  /** The recursive walk from `opId`. `visited` and `groups` are appended to
      only, so they are threaded through as values; `current` is the shared
      group object (null for the caller's default `None`). */
  method FindDownstreamLayerGroups(g: OpGraph, opId: OpId, groups: seq<Group>,
                                   visited: seq<OpId>, current: Group?)
    returns (groups': seq<Group>, visited': seq<OpId>)
    requires WellFormed(g) && opId in g
    requires forall v | v in visited :: v in g
    requires NoDup(visited)
    requires GroupsValid(g, groups)
    requires current != null ==> ConvLayersOf(g, current)
    modifies if current != null && |current.layers| > 0 then {current} else {}
    decreases g.Keys - (set v | v in visited), 2
    // each op is expanded at most once, and the visited list is only extended
    ensures visited <= visited' && NoDup(visited') && opId in visited'
    ensures forall v | v in visited' :: v in g
    ensures groups <= groups' && GroupsValid(g, groups')
    ensures current != null ==> ConvLayersOf(g, current) && old(current.layers) <= current.layers
    // an op already visited returns at once
    ensures opId in visited ==>
      groups' == groups && visited' == visited &&
      (current != null ==> current.layers == old(current.layers))
    // a conv op joins the shared group
    ensures opId !in visited && IsConvType(g[opId].opType) && current != null && old(current.layers) != [] ==>
      old(current.layers) + [g[opId]] <= current.layers
    // a terminating op closes the shared group, which is then recorded if longer than one
    ensures opId !in visited && !PassesThrough(g[opId].opType) && current != null ==>
      current.layers == old(current.layers) &&
      (|current.layers| > 1 ==> Recorded(groups', current.layers))
    // otherwise the shared group is flushed after the consumers return
    ensures opId !in visited && PassesThrough(g[opId].opType) && current != null &&
            old(current.layers) != [] && |current.layers| > 1 ==>
      Recorded(groups', current.layers)
  {
    var cur := current;
    if cur == null || |cur.layers| == 0 {
      cur := new Group();
    }
    if opId in visited {
      return groups, visited;
    }
    if PassesThrough(g[opId].opType) {
      groups', visited' := ExpandOpen(g, opId, groups, visited, cur);
    } else {
      groups', visited' := ExpandClosing(g, opId, groups, visited, cur);
    }
    assert visited'[|visited|] == opId;
  }

  /** The walk at an unvisited op whose type keeps the group open: a conv op
      is appended to `cur`, the consumers are walked with `cur`, and `cur` is
      flushed afterwards. */
  method ExpandOpen(g: OpGraph, opId: OpId, groups: seq<Group>, visited: seq<OpId>, cur: Group)
    returns (groups': seq<Group>, visited': seq<OpId>)
    requires WellFormed(g) && opId in g && opId !in visited && PassesThrough(g[opId].opType)
    requires forall v | v in visited :: v in g
    requires NoDup(visited)
    requires GroupsValid(g, groups)
    requires ConvLayersOf(g, cur)
    modifies cur
    decreases g.Keys - (set v | v in visited), 1
    ensures visited + [opId] <= visited' && NoDup(visited')
    ensures forall v | v in visited' :: v in g
    ensures groups <= groups' && GroupsValid(g, groups')
    ensures ConvLayersOf(g, cur) && old(cur.layers) <= cur.layers
    ensures IsConvType(g[opId].opType) ==> old(cur.layers) + [g[opId]] <= cur.layers
    ensures |cur.layers| > 1 ==> Recorded(groups', cur.layers)
  {
    visited' := visited + [opId];
    var op := g[opId];
    if IsConvType(op.opType) {
      cur.layers := cur.layers + [op];
    }
    UnvisitedShrinks(g.Keys, opId, visited, visited');
    groups', visited' := VisitConsumers(g, Consumers(op), groups, visited', cur);
    groups' := RecordGroup(g, groups', cur);
  }

  /** The walk at an unvisited op of any other type: `cur` is closed (and
      recorded when longer than one), and the consumers are walked with a
      new empty group, which is flushed afterwards. */
  method ExpandClosing(g: OpGraph, opId: OpId, groups: seq<Group>, visited: seq<OpId>, cur: Group)
    returns (groups': seq<Group>, visited': seq<OpId>)
    requires WellFormed(g) && opId in g && opId !in visited && !PassesThrough(g[opId].opType)
    requires forall v | v in visited :: v in g
    requires NoDup(visited)
    requires GroupsValid(g, groups)
    requires ConvLayersOf(g, cur)
    decreases g.Keys - (set v | v in visited), 1
    ensures visited + [opId] <= visited' && NoDup(visited')
    ensures forall v | v in visited' :: v in g
    ensures groups <= groups' && GroupsValid(g, groups')
    ensures |cur.layers| > 1 ==> Recorded(groups', cur.layers)
  {
    visited' := visited + [opId];
    var op := g[opId];
    groups' := RecordGroup(g, groups, cur);
    var next := new Group();
    UnvisitedShrinks(g.Keys, opId, visited, visited');
    ghost var mid := groups';
    groups', visited' := VisitConsumers(g, Consumers(op), groups', visited', next);
    if |cur.layers| > 1 {
      ghost var k :| 0 <= k < |mid| && mid[k].layers == cur.layers;
      assert groups'[k] == mid[k];
    }
    groups' := RecordGroup(g, groups', next);
  }

  /** Records `group` when it is longer than one and no equal group is
      recorded yet (source lines 117-118 and 129-130). */
  method RecordGroup(g: OpGraph, groups: seq<Group>, group: Group) returns (groups': seq<Group>)
    requires GroupsValid(g, groups) && ConvLayersOf(g, group)
    ensures GroupsValid(g, groups')
    ensures groups' == if |group.layers| > 1 && !Recorded(groups, group.layers)
                       then groups + [group] else groups
    ensures |group.layers| > 1 ==> Recorded(groups', group.layers)
  {
    groups' := groups;
    if |group.layers| > 1 && !Recorded(groups, group.layers) {
      groups' := groups + [group];
      assert groups'[|groups'| - 1].layers == group.layers;
    }
  }

  /** The loop over `op.output.consumers`: each consumer's walk receives the
      same group object `cur`. */
  method VisitConsumers(g: OpGraph, consumers: seq<OpId>, groups: seq<Group>,
                        visited: seq<OpId>, cur: Group)
    returns (groups': seq<Group>, visited': seq<OpId>)
    requires WellFormed(g)
    requires forall c | c in consumers :: c in g
    requires forall v | v in visited :: v in g
    requires NoDup(visited)
    requires GroupsValid(g, groups)
    requires ConvLayersOf(g, cur)
    modifies if |cur.layers| > 0 then {cur} else {}
    decreases g.Keys - (set v | v in visited), 3
    ensures visited <= visited' && NoDup(visited')
    ensures forall v | v in visited' :: v in g
    ensures groups <= groups' && GroupsValid(g, groups')
    ensures ConvLayersOf(g, cur) && old(cur.layers) <= cur.layers
  {
    groups', visited' := groups, visited;
    for i := 0 to |consumers|
      invariant visited <= visited' && NoDup(visited')
      invariant forall v | v in visited' :: v in g
      invariant groups <= groups' && GroupsValid(g, groups')
      invariant ConvLayersOf(g, cur) && old(cur.layers) <= cur.layers
    {
      VisitedGrowth(g.Keys, visited, visited');
      groups', visited' := FindDownstreamLayerGroups(g, consumers[i], groups', visited', cur);
    }
  }

  /** `find_layer_groups_to_scale_as_conn_ops`: start a walk at every op fed
      by a model input, in the graph's op order, sharing one visited list. */
  method FindLayerGroupsToScale(g: OpGraph, order: seq<OpId>)
    returns (groups: seq<Group>, visited: seq<OpId>)
    requires WellFormed(g)
    requires forall k | 0 <= k < |order| :: order[k] in g
    ensures GroupsValid(g, groups)
    ensures NoDup(visited) && forall v | v in visited :: v in g
    ensures forall k | 0 <= k < |order| && g[order[k]].fedByModelInput :: order[k] in visited
  {
    var inputNodes: seq<OpId> := [];
    for k := 0 to |order|
      invariant forall v | v in inputNodes :: v in g
      invariant forall j | 0 <= j < k && g[order[j]].fedByModelInput :: order[j] in inputNodes
    {
      if g[order[k]].fedByModelInput {
        inputNodes := inputNodes + [order[k]];
      }
    }
    groups, visited := [], [];
    for k := 0 to |inputNodes|
      invariant GroupsValid(g, groups)
      invariant NoDup(visited) && forall v | v in visited :: v in g
      invariant forall j | 0 <= j < k :: inputNodes[j] in visited
    {
      ghost var before := visited;
      groups, visited := FindDownstreamLayerGroups(g, inputNodes[k], groups, visited, null);
      assert forall j | 0 <= j < k :: inputNodes[j] in before;
    }
  }
}
