/** QuantAwareTraining: the white set, then InsertFakeQuantOp's selection, grouping and
    rewrite, committed through the job builder; and what the committed result is,
    whatever order the hash containers are visited in. */
module QuantAwareTraining {
  import opened Wrappers
  import opened OpGraphs
  import opened QatLists
  import opened MarkerNames
  import opened WhiteSet
  import opened EdgeSelection
  import opened Grouping
  import opened Rewrites
  import opened JobBuilders

  /** The op names of the consumers of the float edges of `p`. */
  ghost function ConsumerNames(g: OpGraph, p: set<EdgeId>): set<string> {
    set e | e in p && IsFloatEdge(g, e) :: g.nodes[g.edges[e].dst].conf.name
  }

  /** The marker map of a set of edges is unique: it does not depend on the order the
      groups were visited in. */
  lemma MarkerMapUnique(g: OpGraph, p: set<EdgeId>, m1: map<string, AddedOp>, m2: map<string, AddedOp>)
    requires IsMarkerMap(g, p, m1) && IsMarkerMap(g, p, m2)
    ensures m1 == m2
  {
    MarkerMapAgrees(g, p, m1, m2);
    MarkerMapAgrees(g, p, m2, m1);
    SameEntries(m1, m2);
  }

  lemma MarkerMapAgrees(g: OpGraph, p: set<EdgeId>, m1: map<string, AddedOp>, m2: map<string, AddedOp>)
    requires IsMarkerMap(g, p, m1) && IsMarkerMap(g, p, m2)
    ensures m1.Keys <= m2.Keys && forall l :: l in m1 ==> m1[l] == m2[l]
  {
    forall l | l in m1
      ensures l in m2 && m2[l] == m1[l]
    {
      var e :| e in p && IsFloatEdge(g, e) && g.edges[e].lbis[0] == l;
    }
  }

  /** The staged map of a set of edges is unique: it does not depend on the order the
      groups or the edges of a group were visited in. */
  lemma StagedMapUnique(g: OpGraph, p: set<EdgeId>, s1: map<string, OperatorConf>, s2: map<string, OperatorConf>)
    requires IsStagedMap(g, p, s1) && IsStagedMap(g, p, s2)
    ensures s1 == s2
  {
    StagedMapAgrees(g, p, s1, s2);
    StagedMapAgrees(g, p, s2, s1);
    SameEntries(s1, s2);
  }

  /** Two maps with the same keys and the same value at each key are equal. */
  lemma SameEntries<V>(m1: map<string, V>, m2: map<string, V>)
    requires m1.Keys <= m2.Keys && m2.Keys <= m1.Keys
    requires forall l :: l in m1 ==> m1[l] == m2[l]
    ensures m1 == m2
  {
    assert m1.Keys == m2.Keys;
  }

  lemma StagedMapAgrees(g: OpGraph, p: set<EdgeId>, s1: map<string, OperatorConf>, s2: map<string, OperatorConf>)
    requires IsStagedMap(g, p, s1) && IsStagedMap(g, p, s2)
    ensures s1.Keys <= s2.Keys && forall k :: k in s1 ==> s1[k] == s2[k]
  {
    forall k | k in s1
      ensures k in s2 && s2[k] == s1[k]
    {
      var e :| e in p && IsFloatEdge(g, e) && g.nodes[g.edges[e].dst].conf.name == k;
    }
  }

  /** The staged map holds one configuration per consumer name, and that configuration
      carries the name it is filed under: what MutOpsOnlyOnce receives has one
      configuration per destination. */
  lemma StagedNamesMatch(g: OpGraph, p: set<EdgeId>, s: map<string, OperatorConf>)
    requires IsStagedMap(g, p, s)
    ensures s.Keys == ConsumerNames(g, p)
    ensures forall k :: k in s ==> s[k].name == k
  {
    forall k | k in s
      ensures k in ConsumerNames(g, p) && s[k].name == k
    {
      var e :| e in p && IsFloatEdge(g, e) && g.nodes[g.edges[e].dst].conf.name == k;
    }
  }

  /** Each marker is the identity op named after its lbn, reading that lbn, placed like
      the lbn's producer; two lbns never share a marker op. */
  lemma MarkersNamedByLbn(g: OpGraph, p: set<EdgeId>, m: map<string, AddedOp>)
    requires IsMarkerMap(g, p, m)
    ensures forall l :: l in m ==>
      m[l].conf == MarkerConf(l) && m[l].conf.name == MarkerName(l) &&
      exists n: NodeId :: n < |g.nodes| && l in g.nodes[n].blobs && m[l].placement == g.nodes[n].placement
    ensures forall l1, l2 :: l1 in m && l2 in m && l1 != l2 ==> m[l1] != m[l2]
  {
    forall l | l in m
      ensures m[l].conf == MarkerConf(l) &&
        exists n: NodeId :: n < |g.nodes| && l in g.nodes[n].blobs && m[l].placement == g.nodes[n].placement
    {
      var e :| e in p && IsFloatEdge(g, e) && g.edges[e].lbis[0] == l;
      assert l in g.nodes[g.edges[e].src].blobs;
    }
    forall l1, l2 | l1 in m && l2 in m && l1 != l2
      ensures m[l1] != m[l2]
    {
      assert m[l1].conf.inputs["in_0"] == l1;
    }
  }

  /** After the rewrite, the consumer of every float edge reads the edge's slot from the
      marker output of the edge's lbn. */
  lemma ConsumerSeesMarker(g: OpGraph, p: set<EdgeId>, s: map<string, OperatorConf>, e: EdgeId)
    requires Valid(g) && AllRewirable(g, p) && IsStagedMap(g, p, s) && e in p
    ensures var d := g.edges[e].dst; var lbn := g.edges[e].lbis[0]; var ibn := g.edges[e].lbi2ibns[lbn][0];
      var name := g.nodes[d].conf.name;
      name in s && ibn in s[name].inputs && s[name].inputs[ibn] == MarkerOutLbn(lbn)
  {
    var d := g.edges[e].dst;
    var lbn := g.edges[e].lbis[0];
    var ibn := g.edges[e].lbi2ibns[lbn][0];
    assert ConsumesAt(g, e, d, ibn);
    assert g.nodes[d].conf.inputs[ibn] == lbn;
  }

  /** A staged configuration is its consumer's own configuration with some input slots
      pointed at the marker output of the lbn they read: its name, type, outputs and set
      of slots are kept, and a slot no float edge of `p` feeds keeps its lbn. */
  lemma StagedOnlyRewires(g: OpGraph, p: set<EdgeId>, s: map<string, OperatorConf>, k: string)
    requires IsStagedMap(g, p, s) && k in s
    ensures exists d: NodeId :: d < |g.nodes| && g.nodes[d].conf.name == k && OnlyRewires(g, p, d, s[k])
  {
    var e :| e in p && IsFloatEdge(g, e) && g.nodes[g.edges[e].dst].conf.name == k;
    var d := g.edges[e].dst;
    RewrittenOnlyRewires(g, p, d);
  }

  /** `conf` is the configuration of `d` with some input slots pointed at the marker
      output of the lbn they read, those fed by no edge of `p` kept. */
  ghost predicate OnlyRewires(g: OpGraph, p: set<EdgeId>, d: NodeId, conf: OperatorConf)
    requires d < |g.nodes|
  {
    var orig := g.nodes[d].conf;
    conf.name == orig.name && conf.userOpType == orig.userOpType && conf.outputs == orig.outputs &&
    conf.inputs.Keys == orig.inputs.Keys &&
    (forall i :: i in orig.inputs ==> conf.inputs[i] == orig.inputs[i] || conf.inputs[i] == MarkerOutLbn(orig.inputs[i])) &&
    (forall i :: i in orig.inputs && (forall x :: x in p ==> !ConsumesAt(g, x, d, i)) ==> conf.inputs[i] == orig.inputs[i])
  }

  lemma RewrittenOnlyRewires(g: OpGraph, p: set<EdgeId>, d: NodeId)
    requires d < |g.nodes|
    ensures OnlyRewires(g, p, d, RewrittenConf(g, p, d))
  {
  }

  /** With relu not an int8 type, the edge inside a conv2d + relu pair whose conv2d is
      int8 gets no marker: the pair's exit markers go after the relu. */
  lemma FusedEdgeNotSelected(g: OpGraph, lists: QatLists, w: set<NodeId>, n: NodeId)
    requires n < |g.nodes| && IsInt8(g, lists, n) && IsConvReluPair(g, n) && "relu" !in lists.int8
    ensures OutEdges(g, n)[0] !in SelectedEdges(g, lists, w)
  {
    var e := OutEdges(g, n)[0];
    assert e in OutEdges(g, n);
    var relu := g.edges[e].dst;
    assert UserOpTypeName(g.nodes[relu].conf) == "relu";
    forall m: NodeId | m < |g.nodes| && IsInt8(g, lists, m)
      ensures g.edges[e].src != GetInferenceOutputNode(g, m)
    {
    }
  }

  /** `s` lists the values of `m`, each once when the values are distinct. */
  ghost predicate ListsValues<V>(s: seq<V>, m: map<string, V>) {
    |s| == |m| && (forall l :: l in m ==> m[l] in s) && (forall i :: 0 <= i < |s| ==> s[i] in m.Values)
  }

  /** The AddOps calls of the group loop: each marker added on its own, with the
      placement of its lbn's producer. */
  method AddMarkers(builder: JobBuilder, markers: map<string, AddedOp>)
    modifies builder
    ensures |builder.added| >= |old(builder.added)| && builder.added[..|old(builder.added)|] == old(builder.added)
    ensures ListsValues(builder.added[|old(builder.added)|..], markers)
    ensures builder.mutated == old(builder.mutated)
  {
    var rest := markers.Keys;
    ghost var addedNow: seq<AddedOp> := [];
    while rest != {}
      invariant rest <= markers.Keys
      invariant builder.added == old(builder.added) + addedNow
      invariant builder.mutated == old(builder.mutated)
      invariant |addedNow| + |rest| == |markers|
      invariant forall l :: l in markers && l !in rest ==> markers[l] in addedNow
      invariant forall i :: 0 <= i < |addedNow| ==> addedNow[i] in markers.Values
      decreases |rest|
    {
      var lbn :| lbn in rest;
      var castOp := markers[lbn];
      ghost var sofar := builder.added;
      builder.AddOps(castOp.placement, [castOp.conf]);
      assert builder.added[|sofar| + 0] == AddedOp(castOp.placement, [castOp.conf][0]);
      assert builder.added == sofar + [castOp];
      addedNow := addedNow + [castOp];
      rest := rest - {lbn};
    }
    assert builder.added[|old(builder.added)|..] == addedNow;
  }

  /** dst_op_confs: the staged configurations, gathered from the map in an unspecified
      order. When every configuration carries the name it is filed under, the names are
      distinct and the gathered configurations, by name, are the map again. */
  method CollectStaged(staged: map<string, OperatorConf>) returns (confs: seq<OperatorConf>)
    ensures ListsValues(confs, staged)
    ensures (forall k :: k in staged ==> staged[k].name == k) ==> DistinctNames(confs) && ByName(confs) == staged
  {
    confs := [];
    var rest := staged.Keys;
    ghost var keys: seq<string> := [];
    while rest != {}
      invariant rest <= staged.Keys
      invariant |keys| == |confs| && |confs| + |rest| == |staged|
      invariant forall i :: 0 <= i < |keys| ==> keys[i] in staged && keys[i] !in rest && confs[i] == staged[keys[i]]
      invariant forall k :: k in staged ==> k in rest || k in keys
      invariant NoDup(keys)
      decreases |rest|
    {
      var name :| name in rest;
      confs := confs + [staged[name]];
      keys := keys + [name];
      rest := rest - {name};
    }
    Gathered(staged, confs, keys);
    if forall k :: k in staged ==> staged[k].name == k {
      GatheredByName(staged, confs, keys);
    }
  }

  /** Configurations gathered from `staged` once per key list its values. */
  lemma Gathered(staged: map<string, OperatorConf>, confs: seq<OperatorConf>, keys: seq<string>)
    requires |keys| == |confs| == |staged| && NoDup(keys)
    requires forall i :: 0 <= i < |keys| ==> keys[i] in staged && confs[i] == staged[keys[i]]
    requires forall k :: k in staged ==> k in keys
    ensures ListsValues(confs, staged)
  {
    forall k | k in staged
      ensures staged[k] in confs
    {
      var i :| 0 <= i < |keys| && keys[i] == k;
      assert confs[i] == staged[k];
    }
    forall i | 0 <= i < |confs|
      ensures confs[i] in staged.Values
    {
      assert staged[keys[i]] == confs[i];
    }
  }

  /** With names matching keys, configurations gathered from `staged` once per key are
      `staged` again, by name. */
  lemma GatheredByName(staged: map<string, OperatorConf>, confs: seq<OperatorConf>, keys: seq<string>)
    requires |keys| == |confs| && NoDup(keys)
    requires forall i :: 0 <= i < |keys| ==> keys[i] in staged && confs[i] == staged[keys[i]]
    requires forall k :: k in staged ==> k in keys
    requires forall k :: k in staged ==> staged[k].name == k
    ensures DistinctNames(confs) && ByName(confs) == staged
  {
    assert forall i :: 0 <= i < |confs| ==> confs[i].name == keys[i];
    ByNameMembers(confs);
    var byName := ByName(confs);
    forall k | k in byName
      ensures k in staged && byName[k] == staged[k]
    {
      var i :| 0 <= i < |confs| && confs[i].name == k;
    }
    forall k | k in staged
      ensures k in byName
    {
      var i :| 0 <= i < |keys| && keys[i] == k;
    }
    SameEntries(byName, staged);
  }

  /** The end of InsertFakeQuantOp: the markers are added, then the staged consumers are
      committed once through MutOpsOnlyOnce, which fails on a consumer the builder has
      replaced before. */
  method Commit(plan: RewritePlan, builder: JobBuilder) returns (r: Result<(), QatError>)
    requires forall k :: k in plan.staged ==> plan.staged[k].name == k
    modifies builder
    ensures r.Ok? <==> plan.staged.Keys !! old(builder.mutated).Keys
    ensures r.Err? ==> r.error == OpMutatedTwice
    ensures |builder.added| >= |old(builder.added)| && builder.added[..|old(builder.added)|] == old(builder.added)
    ensures ListsValues(builder.added[|old(builder.added)|..], plan.markers)
    ensures r.Ok? ==> builder.mutated == old(builder.mutated) + plan.staged
  {
    AddMarkers(builder, plan.markers);
    var dstOpConfs := CollectStaged(plan.staged);
    NamesAreKeys(plan.staged, dstOpConfs, builder.mutated);
    r := builder.MutOpsOnlyOnce(dstOpConfs);
  }

  /** With names matching keys, a listing of `staged` names no op of `before` exactly
      when `staged` and `before` share no key. */
  lemma NamesAreKeys(staged: map<string, OperatorConf>, confs: seq<OperatorConf>, before: map<string, OperatorConf>)
    requires forall k :: k in staged ==> staged[k].name == k
    requires ListsValues(confs, staged)
    ensures (forall i :: 0 <= i < |confs| ==> confs[i].name !in before) <==> staged.Keys !! before.Keys
  {
    forall k | k in staged
      ensures exists i :: 0 <= i < |confs| && confs[i].name == k
    {
      var i :| 0 <= i < |confs| && confs[i] == staged[k];
    }
    forall i | 0 <= i < |confs|
      ensures confs[i].name in staged
    {
      assert confs[i] in staged.Values;
    }
  }

  /** The float edges among the selected ones: the edges the pass rewrites. */
  ghost function FloatSelected(g: OpGraph, lists: QatLists, w: set<NodeId>): set<EdgeId> {
    FloatEdges(g, SelectedEdges(g, lists, w))
  }

  /** InsertFakeQuantOp completes exactly when no edge is selected twice (no edge is both
      an entry and an exit edge, and no two Int8 nodes share an inference output node
      with an out-edge), every selected edge carries one blob, every float one is consumed
      by one slot, and no consumer to rewrite was replaced through the builder before. */
  ghost predicate InsertSucceeds(g: OpGraph, lists: QatLists, w: set<NodeId>, replaced: set<string>) {
    !SelectionClash(g, lists, w) &&
    (forall e :: e in SelectedEdges(g, lists, w) ==> |g.edges[e].lbis| == 1) &&
    (forall e :: e in FloatSelected(g, lists, w) ==> HasSoleIbn(g, e)) &&
    ConsumerNames(g, FloatSelected(g, lists, w)) !! replaced
  }

  /** Once selection, grouping and rewrite have succeeded, the staged map names its
      consumers by their keys, and the pass succeeds exactly when none of them was
      replaced before. */
  lemma CommitDecides(g: OpGraph, lists: QatLists, w: set<NodeId>, replaced: set<string>, staged: map<string, OperatorConf>)
    requires IsStagedMap(g, FloatSelected(g, lists, w), staged)
    ensures forall k :: k in staged ==> staged[k].name == k
    ensures InsertSucceeds(g, lists, w, replaced) <==>
      !SelectionClash(g, lists, w) &&
      (forall e :: e in SelectedEdges(g, lists, w) ==> |g.edges[e].lbis| == 1) &&
      (forall e :: e in FloatSelected(g, lists, w) ==> HasSoleIbn(g, e)) &&
      staged.Keys !! replaced
  {
    StagedNamesMatch(g, FloatSelected(g, lists, w), staged);
  }

  /** The builder's state after the edges `p` were rewritten and committed: the earlier
      ops are kept and followed by the markers of `p`, and the staged consumers of `p`
      are replaced on top of the earlier replacements. */
  ghost predicate Committed(g: OpGraph, p: set<EdgeId>,
                            addedBefore: seq<AddedOp>, added: seq<AddedOp>,
                            mutatedBefore: map<string, OperatorConf>, mutated: map<string, OperatorConf>) {
    |added| >= |addedBefore| && added[..|addedBefore|] == addedBefore &&
    (exists m :: IsMarkerMap(g, p, m) && ListsValues(added[|addedBefore|..], m)) &&
    (exists s :: IsStagedMap(g, p, s) && mutated == mutatedBefore + s)
  }

  /** `plan` holds the marker map and the staged map of the edges `p`. */
  ghost predicate IsPlanOf(g: OpGraph, p: set<EdgeId>, plan: RewritePlan) {
    IsMarkerMap(g, p, plan.markers) && IsStagedMap(g, p, plan.staged)
  }

  /** A committed plan of edges `p` leaves the builder with the marker map and the staged
      map of `p`. */
  lemma CommittedMaps(g: OpGraph, p: set<EdgeId>, plan: RewritePlan,
                      addedBefore: seq<AddedOp>, added: seq<AddedOp>,
                      mutatedBefore: map<string, OperatorConf>, mutated: map<string, OperatorConf>)
    requires IsPlanOf(g, p, plan)
    requires |added| >= |addedBefore| && added[..|addedBefore|] == addedBefore
    requires ListsValues(added[|addedBefore|..], plan.markers)
    requires mutated == mutatedBefore + plan.staged
    ensures Committed(g, p, addedBefore, added, mutatedBefore, mutated)
  {
  }

  /** The grouping and the group loop of InsertFakeQuantOp over the selected edges `sel`:
      they fail exactly when a selected edge does not carry one blob or a float one has
      no sole consuming slot, and otherwise plan the marker and staged maps of the float
      edges. */
  method PlanRewrite(g: OpGraph, sel: set<EdgeId>) returns (r: Result<RewritePlan, QatError>)
    requires Valid(g) && forall e :: e in sel ==> e < |g.edges|
    ensures r.Ok? <==> (forall e :: e in sel ==> |g.edges[e].lbis| == 1) &&
                       (forall e :: e in FloatEdges(g, sel) ==> HasSoleIbn(g, e))
    ensures r.Err? ==> r.error in {LbiCountNotOne, MissingConsumerSlot, IbnCountNotOne}
    ensures r.Ok? ==> IsPlanOf(g, FloatEdges(g, sel), r.value)
  {
    var groups := GroupByLbn(g, sel);
    if groups.Err? {
      r := Err(groups.error);
    } else {
      r := RewriteConsumers(g, sel, groups.value);
    }
  }

  /** InsertFakeQuantOp, for the white set `w`. On success the builder has gained one
      marker per float lbn among the selected edges and the rewired configuration of each
      of their consumers: the unique marker and staged maps of those edges. */
  method InsertFakeQuantOp(g: OpGraph, lists: QatLists, w: set<NodeId>, builder: JobBuilder)
    returns (r: Result<(), QatError>)
    requires Valid(g)
    modifies builder
    ensures r.Ok? <==> InsertSucceeds(g, lists, w, old(builder.mutated).Keys)
    ensures r.Err? ==> r.error in {DuplicateSelectedEdge, LbiCountNotOne, MissingConsumerSlot, IbnCountNotOne, OpMutatedTwice}
    ensures r.Ok? ==> Committed(g, FloatSelected(g, lists, w), old(builder.added), builder.added,
      old(builder.mutated), builder.mutated)
  {
    var sel := SelectEdges(g, lists, w);
    if sel.Err? {
      r := Err(sel.error);
    } else {
      var plan := PlanRewrite(g, sel.value);
      if plan.Err? {
        r := Err(plan.error);
      } else {
        CommitDecides(g, lists, w, old(builder.mutated).Keys, plan.value.staged);
        r := Commit(plan.value, builder);
        if r.Ok? {
          CommittedMaps(g, FloatSelected(g, lists, w), plan.value, old(builder.added), builder.added,
            old(builder.mutated), builder.mutated);
        }
      }
    }
  }

  /** The white set the pass computes: the nodes at the end of a white chain. */
  ghost function DownstreamWhite(g: OpGraph, lists: QatLists): set<NodeId> {
    set n: NodeId | n < |g.nodes| && ReachedByWhiteChain(g, lists, n)
  }

  /** QuantAwareTraining::Apply with the pass's own lists: the white set by the
      topological walk, then InsertFakeQuantOp. */
  method Apply(g: OpGraph, order: seq<NodeId>, builder: JobBuilder) returns (r: Result<(), QatError>)
    requires Valid(g) && IsTopoOrder(g, order)
    modifies builder
    ensures r.Ok? <==> InsertSucceeds(g, DefaultLists(), DownstreamWhite(g, DefaultLists()), old(builder.mutated).Keys)
    ensures r.Err? ==> r.error in {DuplicateSelectedEdge, LbiCountNotOne, MissingConsumerSlot, IbnCountNotOne, OpMutatedTwice}
    ensures r.Ok? ==> Committed(g, FloatSelected(g, DefaultLists(), DownstreamWhite(g, DefaultLists())),
      old(builder.added), builder.added, old(builder.mutated), builder.mutated)
  {
    var lists := DefaultLists();
    var downstreamWhite := BuildDownstreamWhite(g, lists, order);
    assert downstreamWhite == DownstreamWhite(g, lists) by {
      forall n | n in downstreamWhite
        ensures n < |g.nodes|
      {
        assert IsWhiteCandidate(g, lists, n);
      }
    }
    r := InsertFakeQuantOp(g, lists, downstreamWhite, builder);
  }

  /** A float edge entering or leaving int8 territory is among the edges the pass rewrites. */
  lemma BoundaryEdgeSelected(g: OpGraph, lists: QatLists, w: set<NodeId>, e: EdgeId)
    requires (IsEntryEdge(g, lists, w, e) || IsExitEdge(g, lists, e)) && IsFloatEdge(g, e)
    ensures e in FloatSelected(g, lists, w)
  {
  }

  /** On success every float selected edge has a sole consuming slot. */
  lemma SucceedsRewirable(g: OpGraph, lists: QatLists, w: set<NodeId>, replaced: set<string>)
    requires InsertSucceeds(g, lists, w, replaced)
    ensures AllRewirable(g, FloatSelected(g, lists, w))
  {
  }

  /** The consumer of the float edge `e`, as configured in `confs`, reads `e`'s slot from
      the marker output of `e`'s lbn. */
  ghost predicate ReadsMarker(g: OpGraph, e: EdgeId, confs: map<string, OperatorConf>) {
    IsFloatEdge(g, e) && HasSoleIbn(g, e) &&
    var lbn := g.edges[e].lbis[0]; var ibn := g.edges[e].lbi2ibns[lbn][0];
    var name := g.nodes[g.edges[e].dst].conf.name;
    name in confs && ibn in confs[name].inputs && confs[name].inputs[ibn] == MarkerOutLbn(lbn)
  }

  /** Replacing on top of earlier replacements keeps what the new configurations read. */
  lemma ReadsMarkerOver(g: OpGraph, e: EdgeId, before: map<string, OperatorConf>, s: map<string, OperatorConf>)
    requires ReadsMarker(g, e, s)
    ensures ReadsMarker(g, e, before + s)
  {
  }

  /** After a commit of the edges `p`, the marker of each float edge of `p` is among the
      ops added. */
  lemma CommittedMarkerAdded(g: OpGraph, p: set<EdgeId>, addedBefore: seq<AddedOp>, added: seq<AddedOp>,
                             mutatedBefore: map<string, OperatorConf>, mutated: map<string, OperatorConf>,
                             e: EdgeId)
    requires e in p && IsFloatEdge(g, e)
    requires Committed(g, p, addedBefore, added, mutatedBefore, mutated)
    ensures MarkerOp(g, e) in added[|addedBefore|..]
  {
    var m :| IsMarkerMap(g, p, m) && ListsValues(added[|addedBefore|..], m);
    assert m[g.edges[e].lbis[0]] == MarkerOp(g, e);
  }

  /** After a commit of the rewritable edges `p`, the consumer of each edge of `p` reads
      the marker's output. */
  lemma CommittedConsumerReads(g: OpGraph, p: set<EdgeId>, addedBefore: seq<AddedOp>, added: seq<AddedOp>,
                               mutatedBefore: map<string, OperatorConf>, mutated: map<string, OperatorConf>,
                               e: EdgeId)
    requires Valid(g) && AllRewirable(g, p) && e in p
    requires Committed(g, p, addedBefore, added, mutatedBefore, mutated)
    ensures ReadsMarker(g, e, mutated)
  {
    var s :| IsStagedMap(g, p, s) && mutated == mutatedBefore + s;
    ConsumerSeesMarker(g, p, s, e);
    ReadsMarkerOver(g, e, mutatedBefore, s);
  }

  /** What the pass promises, edge by edge: once InsertFakeQuantOp has committed, every
      float edge entering or leaving int8 territory has its marker among the ops added,
      and its consumer's slot reads the marker's output. */
  lemma BoundaryEdgeReadsMarker(g: OpGraph, lists: QatLists, w: set<NodeId>, replaced: set<string>,
                                addedBefore: seq<AddedOp>, added: seq<AddedOp>,
                                mutatedBefore: map<string, OperatorConf>, mutated: map<string, OperatorConf>,
                                e: EdgeId)
    requires Valid(g) && InsertSucceeds(g, lists, w, replaced)
    requires Committed(g, FloatSelected(g, lists, w), addedBefore, added, mutatedBefore, mutated)
    requires (IsEntryEdge(g, lists, w, e) || IsExitEdge(g, lists, e)) && IsFloatEdge(g, e)
    ensures MarkerOp(g, e) in added[|addedBefore|..]
    ensures ReadsMarker(g, e, mutated)
  {
    BoundaryEdgeSelected(g, lists, w, e);
    SucceedsRewirable(g, lists, w, replaced);
    CommittedMarkerAdded(g, FloatSelected(g, lists, w), addedBefore, added, mutatedBefore, mutated, e);
    CommittedConsumerReads(g, FloatSelected(g, lists, w), addedBefore, added, mutatedBefore, mutated, e);
  }
}
