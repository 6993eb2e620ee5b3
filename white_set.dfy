/** The downstream-white set of QuantAwareTraining::Apply: the nodes reached from an Int8
    node through an unbroken chain of Int8 or Transparent nodes. */
module WhiteSet {
  import opened Wrappers
  import opened OpGraphs
  import opened QatLists
  import opened Traversal

  predicate IsInt8(g: OpGraph, lists: QatLists, n: NodeId) {
    n < |g.nodes| && IsNodeInList(lists.int8, g.nodes[n])
  }

  predicate IsTransparent(g: OpGraph, lists: QatLists, n: NodeId) {
    n < |g.nodes| && IsNodeInList(lists.transparent, g.nodes[n])
  }

  /** The node predicate of the white walk: Int8 or Transparent. */
  predicate IsWhiteCandidate(g: OpGraph, lists: QatLists, n: NodeId) {
    IsInt8(g, lists, n) || IsTransparent(g, lists, n)
  }

  /** The hooks Apply passes to DfsTopoGraphTraversal: no start node; a node is satisfied
      when Int8 or Transparent; a father is satisfied when Int8 or already white; the
      handler inserts the node, failing if it is already there (INSERT_CHECK). */
  function WhiteHooks(g: OpGraph, lists: QatLists): Hooks<set<NodeId>> {
    Hooks(
      (w: set<NodeId>, n: NodeId) => false,
      (w: set<NodeId>, n: NodeId) => IsWhiteCandidate(g, lists, n),
      (w: set<NodeId>, n: NodeId) => IsInt8(g, lists, n) || IsKeyFound(w, n),
      (w: set<NodeId>, n: NodeId) => if n in w then Err(DuplicateWhiteNode) else Ok(w + {n}))
  }

  /** Some father of `n` is Int8 or in `w`. */
  predicate HasInt8OrWhiteFather(g: OpGraph, lists: QatLists, w: set<NodeId>, n: NodeId) {
    exists e: EdgeId :: e < |g.edges| && g.edges[e].dst == n && (IsInt8(g, lists, g.edges[e].src) || g.edges[e].src in w)
  }

  /** What the walk does with the hooks of Apply: it calls the handler on `n` exactly when
      `n` is Int8 or Transparent and has an Int8 or white father, and the handler adds `n`
      to the white set, failing only when `n` is already in it. */
  lemma WhiteHooksQualify(g: OpGraph, lists: QatLists, w: set<NodeId>, n: NodeId)
    ensures Qualifies(g, false, WhiteHooks(g, lists), w, n) <==>
      IsWhiteCandidate(g, lists, n) && HasInt8OrWhiteFather(g, lists, w, n)
    ensures WhiteHooks(g, lists).nodeHandler(w, n).Err? <==> n in w
    ensures WhiteHooks(g, lists).nodeHandler(w, n).Ok? ==> WhiteHooks(g, lists).nodeHandler(w, n).value == w + {n}
  {
    var hooks := WhiteHooks(g, lists);
    if HasInt8OrWhiteFather(g, lists, w, n) {
      var e: EdgeId :| e < |g.edges| && g.edges[e].dst == n && (IsInt8(g, lists, g.edges[e].src) || g.edges[e].src in w);
      assert IsInEdgeOf(g, false, e, n);
    }
  }

  /** The rule the white set obeys: a node is white iff it is Int8 or Transparent and
      has a father that is Int8 or white. */
  ghost predicate IsWhiteFixpoint(g: OpGraph, lists: QatLists, w: set<NodeId>) {
    forall n: NodeId {:trigger IsWhiteCandidate(g, lists, n)} ::
      n in w <==> n < |g.nodes| && IsWhiteCandidate(g, lists, n) && HasInt8OrWhiteFather(g, lists, w, n)
  }

  /** `p` is a chain of edges from an Int8 node through Int8 or Transparent nodes. */
  ghost predicate IsWhiteChain(g: OpGraph, lists: QatLists, p: seq<NodeId>) {
    |p| >= 2 && IsInt8(g, lists, p[0])
    && (forall i :: 1 <= i < |p| ==> IsWhiteCandidate(g, lists, p[i]))
    && (forall i :: 0 <= i < |p| - 1 ==> LinkAt(g, p, i))
  }

  /** The `i`-th step of a chain follows an edge. */
  predicate LinkAt(g: OpGraph, p: seq<NodeId>, i: nat)
    requires i + 1 < |p|
  {
    HasEdge(g, p[i], p[i + 1])
  }

  ghost predicate ReachedByWhiteChain(g: OpGraph, lists: QatLists, n: NodeId) {
    exists p :: IsWhiteChain(g, lists, p) && p[|p| - 1] == n
  }

  /** Whether `n` has a white-satisfied father only depends on the fathers' membership. */
  lemma FatherFrame(g: OpGraph, lists: QatLists, w: set<NodeId>, w': set<NodeId>, n: NodeId)
    requires forall e: EdgeId :: e < |g.edges| && g.edges[e].dst == n ==> (g.edges[e].src in w <==> g.edges[e].src in w')
    ensures HasInt8OrWhiteFather(g, lists, w, n) <==> HasInt8OrWhiteFather(g, lists, w', n)
  {
    if HasInt8OrWhiteFather(g, lists, w, n) {
      var e: EdgeId :| e < |g.edges| && g.edges[e].dst == n && (IsInt8(g, lists, g.edges[e].src) || g.edges[e].src in w);
      assert g.edges[e].src in w ==> g.edges[e].src in w';
    }
    if HasInt8OrWhiteFather(g, lists, w', n) {
      var e: EdgeId :| e < |g.edges| && g.edges[e].dst == n && (IsInt8(g, lists, g.edges[e].src) || g.edges[e].src in w');
      assert g.edges[e].src in w' ==> g.edges[e].src in w;
    }
  }

  /** Walking a prefix of a topological order never fails and yields the white rule on
      the nodes of that prefix. */
  lemma {:induction false} WhiteWalkPrefix(g: OpGraph, lists: QatLists, order: seq<NodeId>, k: nat)
    requires Valid(g) && IsTopoOrder(g, order) && k <= |order|
    ensures Walk(g, false, order[..k], WhiteHooks(g, lists), {}).Ok?
    ensures forall n :: n in Walk(g, false, order[..k], WhiteHooks(g, lists), {}).value ==> n in order[..k]
    ensures forall n :: n in order[..k] ==>
      (n in Walk(g, false, order[..k], WhiteHooks(g, lists), {}).value <==>
       IsWhiteCandidate(g, lists, n) && HasInt8OrWhiteFather(g, lists, Walk(g, false, order[..k], WhiteHooks(g, lists), {}).value, n))
  {
    if k > 0 {
      var hooks := WhiteHooks(g, lists);
      WhiteWalkPrefix(g, lists, order, k - 1);
      var w := Walk(g, false, order[..k - 1], hooks, {}).value;
      var m := order[k - 1];
      assert order[..k][..k - 1] == order[..k - 1];
      assert m !in order[..k - 1];
      assert m !in w;
      WhiteHooksQualify(g, lists, w, m);
      var w' := if IsWhiteCandidate(g, lists, m) && HasInt8OrWhiteFather(g, lists, w, m) then w + {m} else w;
      assert Walk(g, false, order[..k], hooks, {}) == Ok(w');
      // no edge of an earlier node starts at m, and m has no self-loop
      forall n | n in order[..k]
        ensures HasInt8OrWhiteFather(g, lists, w, n) <==> HasInt8OrWhiteFather(g, lists, w', n)
      {
        var i :| 0 <= i < k && order[i] == n;
        assert forall e: EdgeId :: e < |g.edges| && g.edges[e].dst == n ==> g.edges[e].src != m;
        FatherFrame(g, lists, w, w', n);
      }
    }
  }

  /** A white node is the end of a white chain, `p`. */
  lemma {:induction false} WhiteNodeHasChain(g: OpGraph, lists: QatLists, order: seq<NodeId>, w: set<NodeId>, i: nat)
    returns (p: seq<NodeId>)
    requires Valid(g) && IsTopoOrder(g, order) && IsWhiteFixpoint(g, lists, w)
    requires i < |order| && order[i] in w
    ensures IsWhiteChain(g, lists, p) && p[|p| - 1] == order[i]
    decreases i
  {
    var n := order[i];
    assert IsWhiteCandidate(g, lists, n) && HasInt8OrWhiteFather(g, lists, w, n);
    var e: EdgeId :| e < |g.edges| && g.edges[e].dst == n && (IsInt8(g, lists, g.edges[e].src) || g.edges[e].src in w);
    var f := g.edges[e].src;
    assert HasEdge(g, f, n);
    if IsInt8(g, lists, f) {
      p := [f, n];
      assert LinkAt(g, p, 0);
    } else {
      assert f < |g.nodes| && f in order;
      var j :| 0 <= j < |order| && order[j] == f;
      TopoEdgeEarlier(g, order, e, j, i);
      var q := WhiteNodeHasChain(g, lists, order, w, j);
      ChainExtend(g, lists, q, n);
      p := q + [n];
    }
  }

  lemma ChainExtend(g: OpGraph, lists: QatLists, p: seq<NodeId>, n: NodeId)
    requires IsWhiteChain(g, lists, p) && HasEdge(g, p[|p| - 1], n) && IsWhiteCandidate(g, lists, n)
    ensures IsWhiteChain(g, lists, p + [n]) && (p + [n])[|p|] == n
  {
    var q := p + [n];
    assert forall t :: 0 <= t < |p| ==> q[t] == p[t];
    assert LinkAt(g, q, |p| - 1);
    assert forall t :: 0 <= t < |p| - 1 ==> LinkAt(g, p, t) && LinkAt(g, q, t);
  }

  /** The end of a white chain is white. */
  lemma {:induction false} ChainEndIsWhite(g: OpGraph, lists: QatLists, w: set<NodeId>, p: seq<NodeId>)
    requires IsWhiteFixpoint(g, lists, w) && IsWhiteChain(g, lists, p)
    ensures p[|p| - 1] in w
    decreases |p|
  {
    var n := p[|p| - 1];
    var f := p[|p| - 2];
    assert LinkAt(g, p, |p| - 2);
    var e: EdgeId :| e < |g.edges| && g.edges[e].src == f && g.edges[e].dst == n;
    if |p| > 2 {
      var q := p[..|p| - 1];
      forall t | 0 <= t < |q| - 1
        ensures LinkAt(g, q, t)
      {
        assert LinkAt(g, p, t);
        assert q[t] == p[t] && q[t + 1] == p[t + 1];
      }
      assert IsWhiteChain(g, lists, q);
      ChainEndIsWhite(g, lists, w, q);
    }
    assert HasInt8OrWhiteFather(g, lists, w, n);
  }

  /** On a DAG the white rule has one solution: the nodes reached by a white chain. */
  lemma WhiteFixpointIsChainReach(g: OpGraph, lists: QatLists, order: seq<NodeId>, w: set<NodeId>)
    requires Valid(g) && IsTopoOrder(g, order) && IsWhiteFixpoint(g, lists, w)
    ensures forall n: NodeId :: n in w <==> ReachedByWhiteChain(g, lists, n)
  {
    forall n: NodeId
      ensures n in w <==> ReachedByWhiteChain(g, lists, n)
    {
      if n in w {
        assert IsWhiteCandidate(g, lists, n);
        assert n in order;
        var i :| 0 <= i < |order| && order[i] == n;
        var p := WhiteNodeHasChain(g, lists, order, w, i);
      }
      if ReachedByWhiteChain(g, lists, n) {
        var p :| IsWhiteChain(g, lists, p) && p[|p| - 1] == n;
        ChainEndIsWhite(g, lists, w, p);
      }
    }
  }

  /** The white set Apply builds with DfsTopoGraphTraversal. The INSERT_CHECK never fires,
      hence no error result. */
  method BuildDownstreamWhite(g: OpGraph, lists: QatLists, order: seq<NodeId>) returns (w: set<NodeId>)
    requires Valid(g) && IsTopoOrder(g, order)
    ensures IsWhiteFixpoint(g, lists, w)
    ensures forall n: NodeId :: n in w <==> ReachedByWhiteChain(g, lists, n)
    ensures forall n: NodeId :: n in w ==> IsWhiteCandidate(g, lists, n)
    ensures forall n: NodeId :: n < |g.nodes| && g.nodes[n].conf.userOpType.None? ==> n !in w && !IsInt8(g, lists, n)
  {
    var r := DfsTopoGraphTraversal(g, false, order, WhiteHooks(g, lists), {});
    WhiteWalkPrefix(g, lists, order, |order|);
    assert order[..|order|] == order;
    w := r.value;
    forall n: NodeId
      ensures n in w <==> n < |g.nodes| && IsWhiteCandidate(g, lists, n) && HasInt8OrWhiteFather(g, lists, w, n)
    {
      if n < |g.nodes| { assert n in order; }
    }
    WhiteFixpointIsChainReach(g, lists, order, w);
  }
}
