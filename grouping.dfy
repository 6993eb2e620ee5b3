/** The second stage of InsertFakeQuantOp: the selected edges grouped by the one logical
    blob each of them carries (edges_group_by_lbn). */
module Grouping {
  import opened Wrappers
  import opened OpGraphs

  /** `groups` maps each lbn carried by an edge of `es` to the edges of `es` that carry
      it, each once; every edge of `es` carries exactly one lbn. */
  ghost predicate IsLbnGrouping(g: OpGraph, es: set<EdgeId>, groups: map<string, seq<EdgeId>>) {
    (forall e :: e in es ==>
       e < |g.edges| && |g.edges[e].lbis| == 1 &&
       g.edges[e].lbis[0] in groups && e in groups[g.edges[e].lbis[0]])
    && (forall l :: l in groups ==> |groups[l]| > 0 && NoDup(groups[l]))
    && (forall l, i :: l in groups && 0 <= i < |groups[l]| ==>
          groups[l][i] in es && groups[l][i] < |g.edges| &&
          |g.edges[groups[l][i]].lbis| == 1 && g.edges[groups[l][i]].lbis[0] == l)
  }

  /** The grouping loop. Selected edges are visited in an unspecified order (a hash set);
      the CHECK_EQ on the blob count aborts the pass on the first edge carrying other
      than one blob, so the pass aborts exactly when some selected edge does. */
  method GroupByLbn(g: OpGraph, sel: set<EdgeId>) returns (r: Result<map<string, seq<EdgeId>>, QatError>)
    requires forall e :: e in sel ==> e < |g.edges|
    ensures r.Err? <==> exists e :: e in sel && |g.edges[e].lbis| != 1
    ensures r.Err? ==> r.error == LbiCountNotOne
    ensures r.Ok? ==> IsLbnGrouping(g, sel, r.value)
  {
    var groups: map<string, seq<EdgeId>> := map[];
    var rest := sel;
    ghost var done: set<EdgeId> := {};
    while rest != {}
      invariant rest <= sel && done == sel - rest
      invariant IsLbnGrouping(g, done, groups)
      decreases |rest|
    {
      var edge :| edge in rest;
      if |g.edges[edge].lbis| != 1 {
        return Err(LbiCountNotOne);
      }
      var lbn := g.edges[edge].lbis[0];
      GroupingStep(g, done, groups, edge);
      groups := Push(groups, lbn, edge);
      rest := rest - {edge};
      done := done + {edge};
    }
    r := Ok(groups);
  }

  /** Appends `edge` to the group of `lbn`, opening the group on its first edge. */
  function Push(groups: map<string, seq<EdgeId>>, lbn: string, edge: EdgeId): (r: map<string, seq<EdgeId>>)
    ensures r.Keys == groups.Keys + {lbn}
    ensures r[lbn] == (if lbn in groups then groups[lbn] else []) + [edge]
    ensures forall l :: l in groups && l != lbn ==> r[l] == groups[l]
  {
    groups[lbn := (if lbn in groups then groups[lbn] else []) + [edge]]
  }

  /** Pushing a new edge onto the group of its lbn keeps the grouping. */
  lemma GroupingStep(g: OpGraph, done: set<EdgeId>, groups: map<string, seq<EdgeId>>, edge: EdgeId)
    requires IsLbnGrouping(g, done, groups)
    requires edge !in done && edge < |g.edges| && |g.edges[edge].lbis| == 1
    ensures IsLbnGrouping(g, done + {edge}, Push(groups, g.edges[edge].lbis[0], edge))
  {
    var lbn := g.edges[edge].lbis[0];
    var r := Push(groups, lbn, edge);
    var before := if lbn in groups then groups[lbn] else [];
    assert edge !in before;
    forall l, i | l in r && 0 <= i < |r[l]|
      ensures r[l][i] in done + {edge} && r[l][i] < |g.edges| &&
              |g.edges[r[l][i]].lbis| == 1 && g.edges[r[l][i]].lbis[0] == l
    {
      if l == lbn && i < |before| {
        assert r[l][i] == groups[l][i];
      }
    }
  }

  /** The edges of one group share their source node: under the framework invariants an
      lbn has one producer. This is why the CHECK that each edge leaves the source of its
      group holds. */
  lemma GroupSharesSource(g: OpGraph, es: set<EdgeId>, groups: map<string, seq<EdgeId>>, l: string, i: nat)
    requires Valid(g) && IsLbnGrouping(g, es, groups)
    requires l in groups && i < |groups[l]|
    ensures g.edges[groups[l][i]].src == g.edges[groups[l][0]].src
    ensures g.edges[groups[l][0]].src < |g.nodes| && l in g.nodes[g.edges[groups[l][0]].src].blobs
  {
    var a, b := groups[l][i], groups[l][0];
    assert g.edges[a].lbis[0] == l && g.edges[b].lbis[0] == l;
    assert l in g.nodes[g.edges[a].src].blobs && l in g.nodes[g.edges[b].src].blobs;
  }
}
