/** The third stage of InsertFakeQuantOp: one identity marker per float lbn group, and the
    consumers of each group rewired to the marker's output on one staged copy of each
    consumer's configuration (dst_op_name2dst_op_confs). */
module Rewrites {
  import opened Wrappers
  import opened OpGraphs
  import opened MarkerNames
  import opened QatLists
  import opened Grouping

  /** An operator to add to the job, with its placement. */
  datatype AddedOp = AddedOp(placement: ParallelConf, conf: OperatorConf)

  /** What the rewrite stage produces: the marker of each rewritten lbn, and the staged
      configuration of each rewritten consumer, by op name. */
  datatype RewritePlan = RewritePlan(markers: map<string, AddedOp>, staged: map<string, OperatorConf>)

  /** The edge carries exactly one blob, which its source produces as float. */
  predicate IsFloatEdge(g: OpGraph, e: EdgeId) {
    e < |g.edges| && |g.edges[e].lbis| == 1 &&
    g.edges[e].src < |g.nodes| && g.edges[e].dst < |g.nodes| &&
    g.edges[e].lbis[0] in g.nodes[g.edges[e].src].blobs &&
    g.nodes[g.edges[e].src].blobs[g.edges[e].lbis[0]] == Float
  }

  /** The edges of `sel` the rewrite stage acts on: the others are in groups it skips. */
  ghost function FloatEdges(g: OpGraph, sel: set<EdgeId>): set<EdgeId> {
    set e | e in sel && IsFloatEdge(g, e)
  }

  /** The blob of the edge is consumed by exactly one input slot (ibn) of its destination. */
  predicate HasSoleIbn(g: OpGraph, e: EdgeId)
    requires e < |g.edges| && |g.edges[e].lbis| == 1
  {
    g.edges[e].lbis[0] in g.edges[e].lbi2ibns && |g.edges[e].lbi2ibns[g.edges[e].lbis[0]]| == 1
  }

  /** The edge's blob is consumed by node `d` through its input slot `ibn` alone. */
  predicate ConsumesAt(g: OpGraph, e: EdgeId, d: NodeId, ibn: string) {
    e < |g.edges| && |g.edges[e].lbis| == 1 && HasSoleIbn(g, e) &&
    g.edges[e].dst == d && g.edges[e].lbi2ibns[g.edges[e].lbis[0]][0] == ibn
  }

  /** The configuration of node `d` once every edge of `p` into it is rewired: an input
      slot consumed by such an edge reads the marker output of the lbn it read before. */
  ghost function RewrittenConf(g: OpGraph, p: set<EdgeId>, d: NodeId): OperatorConf
    requires d < |g.nodes|
  {
    var orig := g.nodes[d].conf;
    orig.(inputs := map i | i in orig.inputs ::
      if exists e :: e in p && ConsumesAt(g, e, d, i) then MarkerOutLbn(orig.inputs[i]) else orig.inputs[i])
  }

  /** The marker for the blob of a float edge, placed like the blob's producer. */
  function MarkerOp(g: OpGraph, e: EdgeId): AddedOp
    requires IsFloatEdge(g, e)
  {
    AddedOp(g.nodes[g.edges[e].src].placement, MarkerConf(g.edges[e].lbis[0]))
  }

  /** `m` holds, by lbn, the marker of every float edge of `p` and nothing else. */
  ghost predicate IsMarkerMap(g: OpGraph, p: set<EdgeId>, m: map<string, AddedOp>) {
    (forall e :: e in p && IsFloatEdge(g, e) ==>
       g.edges[e].lbis[0] in m && m[g.edges[e].lbis[0]] == MarkerOp(g, e))
    && (forall l :: l in m ==> exists e :: e in p && IsFloatEdge(g, e) && g.edges[e].lbis[0] == l)
  }

  /** `s` holds, by op name, the rewritten configuration of the destination of every float
      edge of `p` and nothing else. */
  ghost predicate IsStagedMap(g: OpGraph, p: set<EdgeId>, s: map<string, OperatorConf>) {
    (forall e :: e in p && IsFloatEdge(g, e) ==>
       g.nodes[g.edges[e].dst].conf.name in s &&
       s[g.nodes[g.edges[e].dst].conf.name] == RewrittenConf(g, p, g.edges[e].dst))
    && (forall k :: k in s ==> exists e :: e in p && IsFloatEdge(g, e) && g.nodes[g.edges[e].dst].conf.name == k)
  }

  /** Under the framework invariants, a slot of a consumer is fed by at most one float
      edge: the slot is bound to one lbn, the lbn has one producer, and a producer and a
      consumer share one edge. So no rewrite ever finds its slot already rewired, and
      the CHECK_EQ on ReplaceInputLbnInOpCustomizedConf's result holds. */
  lemma OneFeederPerSlot(g: OpGraph, e1: EdgeId, e2: EdgeId, d: NodeId, ibn: string)
    requires Valid(g) && IsFloatEdge(g, e1) && IsFloatEdge(g, e2)
    requires ConsumesAt(g, e1, d, ibn) && ConsumesAt(g, e2, d, ibn)
    ensures e1 == e2
  {
    var l1, l2 := g.edges[e1].lbis[0], g.edges[e2].lbis[0];
    assert g.edges[e1].lbi2ibns[l1][0] == ibn && g.edges[e2].lbi2ibns[l2][0] == ibn;
    assert g.nodes[d].conf.inputs[ibn] == l1 && g.nodes[d].conf.inputs[ibn] == l2;
    OneProducer(g, g.edges[e1].src, g.edges[e2].src, l1);
    SameEndsSameEdge(g, e1, e2);
  }

  /** A consumer no edge of `p` enters keeps its configuration. */
  lemma RewrittenUntouched(g: OpGraph, p: set<EdgeId>, d: NodeId)
    requires d < |g.nodes|
    requires forall e :: e in p && e < |g.edges| ==> g.edges[e].dst != d
    ensures RewrittenConf(g, p, d) == g.nodes[d].conf
  {
    var orig := g.nodes[d].conf;
    var r := RewrittenConf(g, p, d);
    assert r.inputs.Keys == orig.inputs.Keys;
    assert forall i :: i in orig.inputs ==> r.inputs[i] == orig.inputs[i];
  }

  /** Adding an edge into another consumer leaves the configuration of `d` as it was. */
  lemma RewrittenAddElsewhere(g: OpGraph, p: set<EdgeId>, e: EdgeId, d: NodeId)
    requires d < |g.nodes| && e < |g.edges| && g.edges[e].dst != d
    ensures RewrittenConf(g, p + {e}, d) == RewrittenConf(g, p, d)
  {
    var r0, r1 := RewrittenConf(g, p, d), RewrittenConf(g, p + {e}, d);
    assert r1.inputs.Keys == r0.inputs.Keys;
    forall i | i in r0.inputs
      ensures r1.inputs[i] == r0.inputs[i]
    {
      assert (exists x :: x in p + {e} && ConsumesAt(g, x, d, i)) <==> (exists x :: x in p && ConsumesAt(g, x, d, i));
    }
  }

  /** Adding an edge into `d` rewires its sole slot and nothing else. */
  lemma RewrittenAddHere(g: OpGraph, p: set<EdgeId>, e: EdgeId, ibn: string)
    requires e < |g.edges| && g.edges[e].dst < |g.nodes| && ConsumesAt(g, e, g.edges[e].dst, ibn)
    requires ibn in g.nodes[g.edges[e].dst].conf.inputs
    ensures var d := g.edges[e].dst; var r0 := RewrittenConf(g, p, d);
      RewrittenConf(g, p + {e}, d) ==
        r0.(inputs := r0.inputs[ibn := MarkerOutLbn(g.nodes[d].conf.inputs[ibn])])
  {
    var d := g.edges[e].dst;
    var r0, r1 := RewrittenConf(g, p, d), RewrittenConf(g, p + {e}, d);
    var want := r0.(inputs := r0.inputs[ibn := MarkerOutLbn(g.nodes[d].conf.inputs[ibn])]);
    assert r1.inputs.Keys == want.inputs.Keys;
    forall i | i in r1.inputs
      ensures r1.inputs[i] == want.inputs[i]
    {
      if i != ibn {
        assert (exists x :: x in p + {e} && ConsumesAt(g, x, d, i)) <==> (exists x :: x in p && ConsumesAt(g, x, d, i));
      }
    }
    assert r1.inputs == want.inputs;
  }

  /** ReplaceInputLbnInOpCustomizedConf: points slot `ibn` of `conf` at `newLbn` and
      returns the lbn the slot held; `None` when `conf` has no such slot. */
  function ReplaceInputLbn(conf: OperatorConf, ibn: string, newLbn: string): (r: Option<(OperatorConf, string)>)
    ensures r.None? <==> ibn !in conf.inputs
    ensures r.Some? ==> r.value.1 == conf.inputs[ibn]
    ensures r.Some? ==> r.value.0 == conf.(inputs := conf.inputs[ibn := newLbn])
  {
    if ibn in conf.inputs then Some((conf.(inputs := conf.inputs[ibn := newLbn]), conf.inputs[ibn])) else None
  }

  /** Staging the rewrite of one more float edge `e`: the staged copy of its consumer (the
      consumer's own configuration on first touch) still reads the edge's lbn at the
      edge's slot, and rewiring that slot stages exactly p + {e}. */
  lemma StageStep(g: OpGraph, p: set<EdgeId>, s: map<string, OperatorConf>, e: EdgeId)
    requires Valid(g) && IsStagedMap(g, p, s)
    requires forall x :: x in p ==> IsFloatEdge(g, x) && HasSoleIbn(g, x)
    requires IsFloatEdge(g, e) && HasSoleIbn(g, e) && e !in p
    ensures var d := g.edges[e].dst;
      var name := g.nodes[d].conf.name;
      var lbn := g.edges[e].lbis[0];
      var ibn := g.edges[e].lbi2ibns[lbn][0];
      var conf := if name in s then s[name] else g.nodes[d].conf;
      ibn in conf.inputs && conf.inputs[ibn] == lbn &&
      IsStagedMap(g, p + {e}, s[name := conf.(inputs := conf.inputs[ibn := MarkerOutLbn(lbn)])])
  {
    var d := g.edges[e].dst;
    var name := g.nodes[d].conf.name;
    var lbn := g.edges[e].lbis[0];
    var ibn := g.edges[e].lbi2ibns[lbn][0];
    var conf := if name in s then s[name] else g.nodes[d].conf;
    StagedCopy(g, p, s, d);
    SlotNotYetRewired(g, p, e);
    RewrittenAddHere(g, p, e, ibn);
    var conf' := conf.(inputs := conf.inputs[ibn := MarkerOutLbn(lbn)]);
    StagedExtend(g, p, s, e, conf');
  }

  /** The copy of consumer `d` that a rewrite works on is the staging of `p` for `d`. */
  lemma StagedCopy(g: OpGraph, p: set<EdgeId>, s: map<string, OperatorConf>, d: NodeId)
    requires UniqueNames(g) && IsStagedMap(g, p, s) && d < |g.nodes|
    requires forall x :: x in p ==> IsFloatEdge(g, x)
    ensures var name := g.nodes[d].conf.name;
      (if name in s then s[name] else g.nodes[d].conf) == RewrittenConf(g, p, d)
  {
    var name := g.nodes[d].conf.name;
    if name in s {
      var x :| x in p && IsFloatEdge(g, x) && g.nodes[g.edges[x].dst].conf.name == name;
      OneNodePerName(g, g.edges[x].dst, d);
    } else {
      forall x | x in p && x < |g.edges|
        ensures g.edges[x].dst != d
      {
        assert g.nodes[g.edges[x].dst].conf.name in s;
      }
      RewrittenUntouched(g, p, d);
    }
  }

  /** The slot of a float edge not in `p` was not rewired by `p`: it still reads the edge's
      lbn. */
  lemma SlotNotYetRewired(g: OpGraph, p: set<EdgeId>, e: EdgeId)
    requires Valid(g) && forall x :: x in p ==> IsFloatEdge(g, x)
    requires IsFloatEdge(g, e) && HasSoleIbn(g, e) && e !in p
    ensures var d := g.edges[e].dst; var lbn := g.edges[e].lbis[0]; var ibn := g.edges[e].lbi2ibns[lbn][0];
      ibn in g.nodes[d].conf.inputs && g.nodes[d].conf.inputs[ibn] == lbn &&
      ibn in RewrittenConf(g, p, d).inputs && RewrittenConf(g, p, d).inputs[ibn] == lbn
  {
    var d := g.edges[e].dst;
    var lbn := g.edges[e].lbis[0];
    var ibn := g.edges[e].lbi2ibns[lbn][0];
    assert ConsumesAt(g, e, d, ibn);
    forall x | IsFloatEdge(g, x) && ConsumesAt(g, x, d, ibn)
      ensures x == e
    {
      OneFeederPerSlot(g, x, e, d, ibn);
    }
  }

  /** Storing the staging of p + {e} for the consumer of `e` stages p + {e}. */
  lemma StagedExtend(g: OpGraph, p: set<EdgeId>, s: map<string, OperatorConf>, e: EdgeId, conf: OperatorConf)
    requires UniqueNames(g) && IsStagedMap(g, p, s) && IsFloatEdge(g, e)
    requires conf == RewrittenConf(g, p + {e}, g.edges[e].dst)
    ensures IsStagedMap(g, p + {e}, s[g.nodes[g.edges[e].dst].conf.name := conf])
  {
    StagedExtendCovers(g, p, s, e, conf);
    StagedExtendKeys(g, p, s, e, conf);
  }

  lemma StagedExtendCovers(g: OpGraph, p: set<EdgeId>, s: map<string, OperatorConf>, e: EdgeId, conf: OperatorConf)
    requires UniqueNames(g) && IsStagedMap(g, p, s) && IsFloatEdge(g, e)
    requires conf == RewrittenConf(g, p + {e}, g.edges[e].dst)
    ensures var s' := s[g.nodes[g.edges[e].dst].conf.name := conf];
      forall x :: x in p + {e} && IsFloatEdge(g, x) ==>
        g.nodes[g.edges[x].dst].conf.name in s' &&
        s'[g.nodes[g.edges[x].dst].conf.name] == RewrittenConf(g, p + {e}, g.edges[x].dst)
  {
    forall x | x in p + {e} && IsFloatEdge(g, x)
      ensures var s' := s[g.nodes[g.edges[e].dst].conf.name := conf];
        g.nodes[g.edges[x].dst].conf.name in s' &&
        s'[g.nodes[g.edges[x].dst].conf.name] == RewrittenConf(g, p + {e}, g.edges[x].dst)
    {
      StagedExtendAt(g, p, s, e, conf, x, x in p);
    }
  }

  /** StagedExtendCovers for one edge `x`, which is either old (`inP`, and its consumer
      has its staging of `p` in `s`) or `e`. */
  lemma StagedExtendAt(g: OpGraph, p: set<EdgeId>, s: map<string, OperatorConf>, e: EdgeId, conf: OperatorConf,
                       x: EdgeId, inP: bool)
    requires UniqueNames(g) && e < |g.edges| && x < |g.edges|
    requires g.edges[e].dst < |g.nodes| && g.edges[x].dst < |g.nodes|
    requires conf == RewrittenConf(g, p + {e}, g.edges[e].dst)
    requires inP ==> (g.nodes[g.edges[x].dst].conf.name in s &&
                      s[g.nodes[g.edges[x].dst].conf.name] == RewrittenConf(g, p, g.edges[x].dst))
    requires !inP ==> x == e
    ensures var s' := s[g.nodes[g.edges[e].dst].conf.name := conf]; var dx := g.edges[x].dst;
      g.nodes[dx].conf.name in s' && s'[g.nodes[dx].conf.name] == RewrittenConf(g, p + {e}, dx)
  {
    var d, dx := g.edges[e].dst, g.edges[x].dst;
    if dx != d {
      RewrittenAddElsewhere(g, p, e, dx);
      if g.nodes[dx].conf.name == g.nodes[d].conf.name {
        OneNodePerName(g, dx, d);
      }
    }
  }

  lemma StagedExtendKeys(g: OpGraph, p: set<EdgeId>, s: map<string, OperatorConf>, e: EdgeId, conf: OperatorConf)
    requires IsStagedMap(g, p, s) && IsFloatEdge(g, e)
    ensures var s' := s[g.nodes[g.edges[e].dst].conf.name := conf];
      forall k :: k in s' ==> exists x :: x in p + {e} && IsFloatEdge(g, x) && g.nodes[g.edges[x].dst].conf.name == k
  {
    var name := g.nodes[g.edges[e].dst].conf.name;
    var s' := s[name := conf];
    forall k | k in s'
      ensures exists x :: x in p + {e} && IsFloatEdge(g, x) && g.nodes[g.edges[x].dst].conf.name == k
    {
      if k != name {
        var x :| x in p && IsFloatEdge(g, x) && g.nodes[g.edges[x].dst].conf.name == k;
        assert x in p + {e};
      }
    }
  }

  /** Giving the lbn of a float group its marker covers every edge of the group. */
  lemma MarkerStep(g: OpGraph, group: seq<EdgeId>, p: set<EdgeId>, m: map<string, AddedOp>, l: string)
    requires UniqueProducers(g) && |group| > 0
    requires forall i :: 0 <= i < |group| ==> IsFloatEdge(g, group[i]) && g.edges[group[i]].lbis[0] == l
    requires IsMarkerMap(g, p, m)
    ensures IsMarkerMap(g, p + Elems(group), m[l := MarkerOp(g, group[0])])
  {
    MarkerStepCovers(g, group, p, m, l);
    MarkerStepKeys(g, group, p, m, l);
  }

  lemma MarkerStepCovers(g: OpGraph, group: seq<EdgeId>, p: set<EdgeId>, m: map<string, AddedOp>, l: string)
    requires UniqueProducers(g) && |group| > 0
    requires forall i :: 0 <= i < |group| ==> IsFloatEdge(g, group[i]) && g.edges[group[i]].lbis[0] == l
    requires IsMarkerMap(g, p, m)
    ensures var m' := m[l := MarkerOp(g, group[0])];
      forall x :: x in p + Elems(group) && IsFloatEdge(g, x) ==>
        g.edges[x].lbis[0] in m' && m'[g.edges[x].lbis[0]] == MarkerOp(g, x)
  {
    forall x | x in p + Elems(group) && IsFloatEdge(g, x)
      ensures var m' := m[l := MarkerOp(g, group[0])];
        g.edges[x].lbis[0] in m' && m'[g.edges[x].lbis[0]] == MarkerOp(g, x)
    {
      if x in Elems(group) {
        var i :| 0 <= i < |group| && group[i] == x;
      }
      MarkerStepAt(g, group[0], m, l, x, x in p);
    }
  }

  /** MarkerStepCovers for one edge `x`, which is either old (`inP`, and its lbn has its
      marker in `m`) or carries `l`. */
  lemma MarkerStepAt(g: OpGraph, front: EdgeId, m: map<string, AddedOp>, l: string, x: EdgeId, inP: bool)
    requires UniqueProducers(g) && IsFloatEdge(g, front) && g.edges[front].lbis[0] == l && IsFloatEdge(g, x)
    requires inP ==> g.edges[x].lbis[0] in m && m[g.edges[x].lbis[0]] == MarkerOp(g, x)
    requires !inP ==> g.edges[x].lbis[0] == l
    ensures var m' := m[l := MarkerOp(g, front)];
      g.edges[x].lbis[0] in m' && m'[g.edges[x].lbis[0]] == MarkerOp(g, x)
  {
    if g.edges[x].lbis[0] == l {
      SameMarker(g, x, front);
    }
  }

  /** Two float edges carrying the same lbn get the same marker. */
  lemma SameMarker(g: OpGraph, x: EdgeId, y: EdgeId)
    requires UniqueProducers(g) && IsFloatEdge(g, x) && IsFloatEdge(g, y) && g.edges[x].lbis[0] == g.edges[y].lbis[0]
    ensures MarkerOp(g, x) == MarkerOp(g, y)
  {
    OneProducer(g, g.edges[x].src, g.edges[y].src, g.edges[x].lbis[0]);
  }

  lemma MarkerStepKeys(g: OpGraph, group: seq<EdgeId>, p: set<EdgeId>, m: map<string, AddedOp>, l: string)
    requires |group| > 0
    requires forall i :: 0 <= i < |group| ==> IsFloatEdge(g, group[i]) && g.edges[group[i]].lbis[0] == l
    requires IsMarkerMap(g, p, m)
    ensures var q := p + Elems(group); var m' := m[l := MarkerOp(g, group[0])];
      forall k :: k in m' ==> exists x :: x in q && IsFloatEdge(g, x) && g.edges[x].lbis[0] == k
  {
    var front := group[0];
    var q := p + Elems(group);
    var m' := m[l := MarkerOp(g, front)];
    forall k | k in m'
      ensures exists x :: x in q && IsFloatEdge(g, x) && g.edges[x].lbis[0] == k
    {
      if k == l {
        assert front in q;
      } else {
        var x :| x in p && IsFloatEdge(g, x) && g.edges[x].lbis[0] == k;
        assert x in q;
      }
    }
  }

  /** Every edge of `p` is float and its blob is consumed by one slot. */
  ghost predicate AllRewirable(g: OpGraph, p: set<EdgeId>) {
    forall x :: x in p ==> IsFloatEdge(g, x) && HasSoleIbn(g, x)
  }

  /** The float edges of `sel` whose lbn is no longer in `todo`: those the group loop has
      already rewritten. */
  ghost function DoneEdges(g: OpGraph, sel: set<EdgeId>, todo: set<string>): set<EdgeId> {
    set e | e in sel && IsFloatEdge(g, e) && g.edges[e].lbis[0] !in todo
  }

  /** The group loop of InsertFakeQuantOp. The groups are visited in an unspecified order
      (a hash map); a group whose blob is not float is skipped; the pass aborts on the
      first float edge whose blob is not consumed by exactly one slot. Otherwise every
      float lbn gets its marker and every consumer of a float edge its rewired copy,
      whatever the order. */
  method RewriteConsumers(g: OpGraph, ghost sel: set<EdgeId>, groups: map<string, seq<EdgeId>>)
    returns (r: Result<RewritePlan, QatError>)
    requires Valid(g) && IsLbnGrouping(g, sel, groups)
    ensures r.Ok? <==> forall e :: e in FloatEdges(g, sel) ==> HasSoleIbn(g, e)
    ensures r.Err? ==> r.error == MissingConsumerSlot || r.error == IbnCountNotOne
    ensures r.Ok? ==> IsMarkerMap(g, FloatEdges(g, sel), r.value.markers)
    ensures r.Ok? ==> IsStagedMap(g, FloatEdges(g, sel), r.value.staged)
  {
    var markers: map<string, AddedOp> := map[];
    var staged: map<string, OperatorConf> := map[];
    var todo := groups.Keys;
    var failure: Option<QatError> := None;
    ghost var done: set<EdgeId> := {};
    AllGroupsPending(g, sel, groups);
    while todo != {} && failure.None?
      invariant todo <= groups.Keys
      invariant done == DoneEdges(g, sel, todo)
      invariant AllRewirable(g, done)
      invariant IsMarkerMap(g, done, markers) && IsStagedMap(g, done, staged)
      invariant failure.Some? ==> exists e :: e in FloatEdges(g, sel) && !HasSoleIbn(g, e)
      invariant failure.Some? ==> failure.value == MissingConsumerSlot || failure.value == IbnCountNotOne
      decreases |todo|, failure.None?
    {
      var lbn :| lbn in todo;
      var step;
      ghost var after;
      step, after := RewriteGroup(g, sel, groups, lbn, RewritePlan(markers, staged), done, todo);
      if step.Err? {
        failure := Some(step.error);
      } else {
        markers, staged := step.value.markers, step.value.staged;
        todo := todo - {lbn};
        done := after;
      }
    }
    if failure.Some? {
      r := Err(failure.value);
    } else {
      assert done == FloatEdges(g, sel);
      r := Ok(RewritePlan(markers, staged));
    }
  }

  /** Before the group loop every float edge is pending: its lbn is a key of the grouping. */
  lemma AllGroupsPending(g: OpGraph, sel: set<EdgeId>, groups: map<string, seq<EdgeId>>)
    requires IsLbnGrouping(g, sel, groups)
    ensures DoneEdges(g, sel, groups.Keys) == {}
  {
  }

  /** One round of the group loop, for the group of `lbn`. `done` are the float edges of
      the groups already rewritten, those whose lbn is no longer in `todo`. */
  method RewriteGroup(g: OpGraph, ghost sel: set<EdgeId>, groups: map<string, seq<EdgeId>>, lbn: string,
                      plan: RewritePlan, ghost done: set<EdgeId>, ghost todo: set<string>)
    returns (r: Result<RewritePlan, QatError>, ghost done': set<EdgeId>)
    requires Valid(g) && IsLbnGrouping(g, sel, groups) && lbn in todo && todo <= groups.Keys
    requires done == DoneEdges(g, sel, todo)
    requires AllRewirable(g, done)
    requires IsMarkerMap(g, done, plan.markers) && IsStagedMap(g, done, plan.staged)
    ensures r.Err? ==> exists e :: e in FloatEdges(g, sel) && !HasSoleIbn(g, e)
    ensures r.Err? ==> r.error == MissingConsumerSlot || r.error == IbnCountNotOne
    ensures r.Ok? ==> done' == DoneEdges(g, sel, todo - {lbn})
    ensures r.Ok? ==> AllRewirable(g, done')
    ensures r.Ok? ==> IsMarkerMap(g, done', r.value.markers) && IsStagedMap(g, done', r.value.staged)
  {
    GroupRound(g, sel, groups, lbn, done, todo);
    var group := groups[lbn];
    var srcNode := g.edges[group[0]].src;
    if g.nodes[srcNode].blobs[lbn] == Float {
      r, done' := RewriteFloatGroup(g, sel, group, lbn, srcNode, plan, done);
    } else {
      // a group whose blob is not float is skipped
      r, done' := Ok(plan), done;
    }
  }

  /** What one round of the group loop relies on: the group of `lbn` is not empty and its
      edges share a source that produces `lbn`; if the blob is float every edge of the
      group is float and new, and the round adds exactly the group to the rewritten
      edges; otherwise the round adds nothing. */
  lemma GroupRound(g: OpGraph, sel: set<EdgeId>, groups: map<string, seq<EdgeId>>, lbn: string,
                   done: set<EdgeId>, todo: set<string>)
    requires Valid(g) && IsLbnGrouping(g, sel, groups) && lbn in todo && todo <= groups.Keys
    requires done == DoneEdges(g, sel, todo)
    ensures var group := groups[lbn];
      |group| > 0 && NoDup(group) && Elems(group) <= sel &&
      var src := g.edges[group[0]].src;
      src < |g.nodes| && lbn in g.nodes[src].blobs &&
      (g.nodes[src].blobs[lbn] != Float ==> DoneEdges(g, sel, todo - {lbn}) == done) &&
      (g.nodes[src].blobs[lbn] == Float ==>
         done + Elems(group) == DoneEdges(g, sel, todo - {lbn}) &&
         forall i :: 0 <= i < |group| ==>
           IsFloatEdge(g, group[i]) && g.edges[group[i]].lbis[0] == lbn && group[i] !in done &&
           g.edges[group[i]].src == src)
  {
    var group := groups[lbn];
    GroupSharesSource(g, sel, groups, lbn, 0);
    var src := g.edges[group[0]].src;
    if g.nodes[src].blobs[lbn] != Float {
      SkippedGroup(g, sel, groups, lbn, todo);
    } else {
      FloatGroup(g, sel, groups, lbn, done, todo);
      GroupDone(g, sel, groups, lbn, todo, done, done + Elems(group));
    }
  }

  /** The body of the group loop for a float group: rewire its consumers, then, since
      the group is not empty, add its marker. */
  method RewriteFloatGroup(g: OpGraph, ghost sel: set<EdgeId>, group: seq<EdgeId>, lbn: string,
                           srcNode: NodeId, plan: RewritePlan, ghost done: set<EdgeId>)
    returns (r: Result<RewritePlan, QatError>, ghost done': set<EdgeId>)
    requires Valid(g) && Elems(group) <= sel && NoDup(group) && |group| > 0
    requires forall i :: 0 <= i < |group| ==>
      IsFloatEdge(g, group[i]) && g.edges[group[i]].lbis[0] == lbn &&
      group[i] !in done && g.edges[group[i]].src == srcNode
    requires AllRewirable(g, done)
    requires IsMarkerMap(g, done, plan.markers) && IsStagedMap(g, done, plan.staged)
    ensures r.Err? ==> exists e :: e in FloatEdges(g, sel) && !HasSoleIbn(g, e)
    ensures r.Err? ==> r.error == MissingConsumerSlot || r.error == IbnCountNotOne
    ensures done' == done + Elems(group)
    ensures r.Ok? ==> AllRewirable(g, done')
    ensures r.Ok? ==> IsMarkerMap(g, done', r.value.markers) && IsStagedMap(g, done', r.value.staged)
  {
    done' := done + Elems(group);
    var rewired, castIsConsumed := RewireGroup(g, group, lbn, srcNode, plan.staged, done);
    if rewired.Err? {
      var i :| 0 <= i < |group| && IsFloatEdge(g, group[i]) && !HasSoleIbn(g, group[i]);
      assert group[i] in Elems(group);
      assert group[i] in FloatEdges(g, sel);
      return Err(rewired.error), done';
    }
    var markers := plan.markers;
    if castIsConsumed {
      assert IsFloatEdge(g, group[0]);
      var castOp := AddedOp(g.nodes[srcNode].placement, MarkerConf(lbn));
      assert castOp == MarkerOp(g, group[0]);
      MarkerStep(g, group, done, markers, lbn);
      markers := markers[lbn := castOp];
    }
    r := Ok(RewritePlan(markers, rewired.value));
  }

  /** After a float group, the rewritten edges are those of the groups left behind. */
  lemma GroupDone(g: OpGraph, sel: set<EdgeId>, groups: map<string, seq<EdgeId>>, lbn: string, todo: set<string>,
                  done: set<EdgeId>, done': set<EdgeId>)
    requires IsLbnGrouping(g, sel, groups) && lbn in todo && todo <= groups.Keys
    requires forall i :: 0 <= i < |groups[lbn]| ==> IsFloatEdge(g, groups[lbn][i])
    requires done == DoneEdges(g, sel, todo) && done' == done + Elems(groups[lbn])
    ensures done' == DoneEdges(g, sel, todo - {lbn})
  {
    forall e | e in sel && IsFloatEdge(g, e) && g.edges[e].lbis[0] == lbn
      ensures e in Elems(groups[lbn])
    {
    }
    forall e | e in Elems(groups[lbn])
      ensures e in sel && IsFloatEdge(g, e) && g.edges[e].lbis[0] == lbn
    {
      var i :| 0 <= i < |groups[lbn]| && groups[lbn][i] == e;
    }
  }

  /** A group whose blob is not float holds no float edge, since its edges share the
      source: skipping it leaves the rewritten edges as they are. */
  lemma SkippedGroup(g: OpGraph, sel: set<EdgeId>, groups: map<string, seq<EdgeId>>, lbn: string, todo: set<string>)
    requires Valid(g) && IsLbnGrouping(g, sel, groups) && lbn in groups
    requires g.edges[groups[lbn][0]].src < |g.nodes| && lbn in g.nodes[g.edges[groups[lbn][0]].src].blobs
    requires g.nodes[g.edges[groups[lbn][0]].src].blobs[lbn] != Float
    ensures DoneEdges(g, sel, todo) == DoneEdges(g, sel, todo - {lbn})
  {
    forall e | e in sel && g.edges[e].lbis[0] == lbn
      ensures !IsFloatEdge(g, e)
    {
      var i :| 0 <= i < |groups[lbn]| && groups[lbn][i] == e;
      GroupSharesSource(g, sel, groups, lbn, i);
    }
  }

  /** In a group whose blob is float every edge is float, shares the source, and is new. */
  lemma FloatGroup(g: OpGraph, sel: set<EdgeId>, groups: map<string, seq<EdgeId>>, lbn: string,
                   done: set<EdgeId>, todo: set<string>)
    requires Valid(g) && IsLbnGrouping(g, sel, groups) && lbn in todo && todo <= groups.Keys
    requires forall e :: e in done ==> IsFloatEdge(g, e) && g.edges[e].lbis[0] !in todo
    requires g.edges[groups[lbn][0]].src < |g.nodes| && lbn in g.nodes[g.edges[groups[lbn][0]].src].blobs
    requires g.nodes[g.edges[groups[lbn][0]].src].blobs[lbn] == Float
    ensures var group := groups[lbn];
      NoDup(group) && |group| > 0 && Elems(group) <= sel &&
      forall i :: 0 <= i < |group| ==>
        IsFloatEdge(g, group[i]) && g.edges[group[i]].lbis[0] == lbn && group[i] !in done &&
        g.edges[group[i]].src == g.edges[group[0]].src
  {
    forall i | 0 <= i < |groups[lbn]|
      ensures IsFloatEdge(g, groups[lbn][i]) && g.edges[groups[lbn][i]].src == g.edges[groups[lbn][0]].src
    {
      GroupSharesSource(g, sel, groups, lbn, i);
    }
  }

  /** The loop over the edges of one float group: each consumer slot is pointed at the
      marker output on the staged copy of its consumer. `consumed` is cast_is_consumed. */
  method RewireGroup(g: OpGraph, group: seq<EdgeId>, lbn: string, srcNode: NodeId,
                     staged: map<string, OperatorConf>, ghost done: set<EdgeId>)
    returns (r: Result<map<string, OperatorConf>, QatError>, consumed: bool)
    requires Valid(g) && NoDup(group)
    requires forall i :: 0 <= i < |group| ==>
      IsFloatEdge(g, group[i]) && g.edges[group[i]].lbis[0] == lbn && group[i] !in done &&
      g.edges[group[i]].src == srcNode
    requires forall x :: x in done ==> IsFloatEdge(g, x) && HasSoleIbn(g, x)
    requires IsStagedMap(g, done, staged)
    ensures r.Err? ==> exists i :: 0 <= i < |group| && IsFloatEdge(g, group[i]) && !HasSoleIbn(g, group[i])
    ensures r.Err? ==> r.error == MissingConsumerSlot || r.error == IbnCountNotOne
    ensures r.Ok? ==> forall i :: 0 <= i < |group| ==> IsFloatEdge(g, group[i]) && HasSoleIbn(g, group[i])
    ensures r.Ok? ==> IsStagedMap(g, done + Elems(group), r.value)
    ensures r.Ok? ==> (consumed <==> |group| > 0)
  {
    consumed := false;
    var dstOpConfs := staged;
    ghost var rewired := done;
    assert group[..0] == [];
    for j := 0 to |group|
      invariant rewired == done + Elems(group[..j])
      invariant forall i :: 0 <= i < j ==> IsFloatEdge(g, group[i]) && HasSoleIbn(g, group[i])
      invariant IsStagedMap(g, rewired, dstOpConfs)
      invariant consumed <==> j > 0
    {
      var edge := group[j];
      assert srcNode == g.edges[edge].src;              // every edge of the group leaves its source
      var dstNode := g.edges[edge].dst;
      var curLbi := g.edges[edge].lbis[0];
      assert curLbi == lbn;                               // the edge carries the group's lbn
      if curLbi !in g.edges[edge].lbi2ibns {
        return Err(MissingConsumerSlot), consumed;
      }
      if |g.edges[edge].lbi2ibns[curLbi]| != 1 {
        return Err(IbnCountNotOne), consumed;
      }
      var dstIbn := g.edges[edge].lbi2ibns[curLbi][0];
      consumed := true;
      var dstOpName := g.nodes[dstNode].conf.name;
      RewireStep(g, group, lbn, srcNode, done, j, rewired, dstOpConfs);
      if !IsKeyFound(dstOpConfs.Keys, dstOpName) {
        dstOpConfs := dstOpConfs[dstOpName := g.nodes[dstNode].conf];
      }
      var dstOpConf := dstOpConfs[dstOpName];
      var newLbn := MarkerOutLbn(lbn);                   // the marker's output lbn
      var replaced := ReplaceInputLbn(dstOpConf, dstIbn, newLbn);
      assert replaced.Some? && replaced.value.1 == lbn;   // the slot read the group's lbn before
      dstOpConfs := dstOpConfs[dstOpName := replaced.value.0];
      rewired := rewired + {edge};
    }
    assert group[..|group|] == group;
    r := Ok(dstOpConfs);
  }

  /** The edges a sequence holds. */
  function Elems(s: seq<EdgeId>): (r: set<EdgeId>)
    ensures forall x :: x in r <==> x in s
  {
    set x | x in s
  }

  /** One round of the edge loop of a float group: the staged copy of the consumer of
      `group[j]`, inserted on first touch, still reads the group's lbn at the edge's slot,
      and rewiring that slot stages the edges up to and including `group[j]`. */
  lemma RewireStep(g: OpGraph, group: seq<EdgeId>, lbn: string, srcNode: NodeId,
                   done: set<EdgeId>, j: nat, rewired: set<EdgeId>, s: map<string, OperatorConf>)
    requires Valid(g) && NoDup(group) && j < |group|
    requires forall i :: 0 <= i < |group| ==>
      IsFloatEdge(g, group[i]) && g.edges[group[i]].lbis[0] == lbn && group[i] !in done
    requires forall x :: x in done ==> IsFloatEdge(g, x) && HasSoleIbn(g, x)
    requires rewired == done + Elems(group[..j])
    requires forall i :: 0 <= i <= j ==> IsFloatEdge(g, group[i]) && HasSoleIbn(g, group[i])
    requires IsStagedMap(g, rewired, s)
    ensures rewired + {group[j]} == done + Elems(group[..j + 1])
    ensures var e := group[j];
      IsFloatEdge(g, e) && HasSoleIbn(g, e) &&
      var d := g.edges[e].dst;
      var name := g.nodes[d].conf.name;
      var ibn := g.edges[e].lbi2ibns[lbn][0];
      var s1 := if name in s then s else s[name := g.nodes[d].conf];
      ibn in s1[name].inputs && s1[name].inputs[ibn] == lbn &&
      IsStagedMap(g, rewired + {e}, s1[name := s1[name].(inputs := s1[name].inputs[ibn := MarkerOutLbn(lbn)])])
  {
    var e := group[j];
    RewiredSoFar(g, group, lbn, done, j, rewired);
    StageStep(g, rewired, s, e);
    var d := g.edges[e].dst;
    var name := g.nodes[d].conf.name;
    var ibn := g.edges[e].lbi2ibns[lbn][0];
    var conf := if name in s then s[name] else g.nodes[d].conf;
    InsertThenOverwrite(s, name, g.nodes[d].conf, conf.(inputs := conf.inputs[ibn := MarkerOutLbn(lbn)]));
  }

  /** The edges rewired before round `j` are float with one slot, and `group[j]` is not
      one of them. */
  lemma RewiredSoFar(g: OpGraph, group: seq<EdgeId>, lbn: string, done: set<EdgeId>, j: nat, rewired: set<EdgeId>)
    requires NoDup(group) && j < |group|
    requires forall i :: 0 <= i < |group| ==> group[i] !in done
    requires forall x :: x in done ==> IsFloatEdge(g, x) && HasSoleIbn(g, x)
    requires rewired == done + Elems(group[..j])
    requires forall i :: 0 <= i <= j ==> IsFloatEdge(g, group[i]) && HasSoleIbn(g, group[i])
    ensures forall x :: x in rewired ==> IsFloatEdge(g, x) && HasSoleIbn(g, x)
    ensures group[j] !in rewired
    ensures rewired + {group[j]} == done + Elems(group[..j + 1])
  {
    assert group[..j + 1] == group[..j] + [group[j]];
    forall x | x in rewired
      ensures IsFloatEdge(g, x) && HasSoleIbn(g, x)
    {
      if x !in done {
        var i :| 0 <= i < j && group[..j][i] == x;
        assert group[i] == x;
      }
    }
  }

  /** Inserting a default at a missing key and then overwriting the key is overwriting it. */
  lemma InsertThenOverwrite<K, V>(s: map<K, V>, k: K, dflt: V, v: V)
    ensures var s1 := if k in s then s else s[k := dflt];
      s1[k] == (if k in s then s[k] else dflt) && s1[k := v] == s[k := v]
  {
  }
}
