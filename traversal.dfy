/** DfsTopoGraphTraversal: a walk over the nodes in topological order that calls a handler on
    every node that is a start node, or that is satisfied and has a satisfied father. */
module Traversal {
  import opened Wrappers
  import opened OpGraphs

  /** The four callbacks of the walk. Each sees the state `S` the handler threads through
      (the state its C++ lambdas capture by reference); a handler failure aborts the walk. */
  datatype Hooks<!S> = Hooks(
    isCurNodeStartNode: (S, NodeId) -> bool,
    isCurNodeSatisfied: (S, NodeId) -> bool,
    isFatherNodeSatisfied: (S, NodeId) -> bool,
    nodeHandler: (S, NodeId) -> Result<S, QatError>)

  /** Edge `e` leads into `n` along the walk's direction: an in-edge, or an out-edge when reversed. */
  predicate IsInEdgeOf(g: OpGraph, reversed: bool, e: EdgeId, n: NodeId) {
    e < |g.edges| && (if reversed then g.edges[e].src == n else g.edges[e].dst == n)
  }

  /** The father reached over edge `e`. */
  function FatherOn(g: OpGraph, reversed: bool, e: EdgeId): NodeId
    requires e < |g.edges|
  {
    if reversed then g.edges[e].dst else g.edges[e].src
  }

  /** NodeOnInEdge: the edges the father scan of `n` runs over. */
  function FatherEdges(g: OpGraph, reversed: bool, n: NodeId): (r: seq<EdgeId>)
    ensures forall e: EdgeId {:trigger e in r} :: e in r <==> IsInEdgeOf(g, reversed, e, n)
    ensures forall i :: 0 <= i < |r| ==> r[i] < |g.edges|
  {
    if reversed then OutEdges(g, n) else InEdges(g, n)
  }

  /** Some father of `n` satisfies the father predicate in state `s`. */
  predicate HasSatisfiedFather<S>(g: OpGraph, reversed: bool, hooks: Hooks<S>, s: S, n: NodeId) {
    exists e: EdgeId :: e < |g.edges| && IsInEdgeOf(g, reversed, e, n) && hooks.isFatherNodeSatisfied(s, FatherOn(g, reversed, e))
  }

  /** The handler is called on `n` in state `s`: it is a start node (and nothing else is
      asked), or it is satisfied and one of its fathers is. */
  predicate Qualifies<S>(g: OpGraph, reversed: bool, hooks: Hooks<S>, s: S, n: NodeId) {
    hooks.isCurNodeStartNode(s, n) ||
    (hooks.isCurNodeSatisfied(s, n) && HasSatisfiedFather(g, reversed, hooks, s, n))
  }

  /** The state after walking `order` from `s0`: the handler runs on each qualifying node in
      turn, and the first failure ends the walk. */
  function Walk<S>(g: OpGraph, reversed: bool, order: seq<NodeId>, hooks: Hooks<S>, s0: S): Result<S, QatError>
    decreases |order|
  {
    if order == [] then Ok(s0)
    else
      match Walk(g, reversed, order[..|order| - 1], hooks, s0)
      case Err(err) => Err(err)
      case Ok(s) =>
        var n := order[|order| - 1];
        if Qualifies(g, reversed, hooks, s, n) then hooks.nodeHandler(s, n) else Ok(s)
  }

  /** Once a prefix of the walk has failed, the whole walk fails in the same way. */
  lemma {:induction false} WalkFailureSticks<S>(g: OpGraph, reversed: bool, order: seq<NodeId>, hooks: Hooks<S>, s0: S, k: nat)
    requires k <= |order|
    requires Walk(g, reversed, order[..k], hooks, s0).Err?
    ensures Walk(g, reversed, order, hooks, s0) == Walk(g, reversed, order[..k], hooks, s0)
    decreases |order| - k
  {
    if k < |order| {
      var shorter := order[..|order| - 1];
      assert shorter[..k] == order[..k];
      WalkFailureSticks(g, reversed, shorter, hooks, s0, k);
    } else {
      assert order[..k] == order;
    }
  }

  /** DfsTopoGraphTraversal over the visiting order `order`; the father scan stops
      consulting the predicate once one father is satisfied. */
  method DfsTopoGraphTraversal<S>(g: OpGraph, reversed: bool, order: seq<NodeId>, hooks: Hooks<S>, s0: S)
    returns (r: Result<S, QatError>)
    ensures r == Walk(g, reversed, order, hooks, s0)
  {
    var s := s0;
    var i := 0;
    while i < |order|
      invariant 0 <= i <= |order|
      invariant Walk(g, reversed, order[..i], hooks, s0) == Ok(s)
    {
      var node := order[i];
      assert order[..i + 1][..i] == order[..i];
      var handle := false;
      if hooks.isCurNodeStartNode(s, node) {
        handle := true;
      } else if hooks.isCurNodeSatisfied(s, node) {
        var fathers := FatherEdges(g, reversed, node);
        var isOneFatherOfNodeSatisfied := false;
        var j := 0;
        while j < |fathers|
          invariant 0 <= j <= |fathers|
          invariant isOneFatherOfNodeSatisfied <==>
            exists k :: 0 <= k < j && hooks.isFatherNodeSatisfied(s, FatherOn(g, reversed, fathers[k]))
        {
          if !isOneFatherOfNodeSatisfied && hooks.isFatherNodeSatisfied(s, FatherOn(g, reversed, fathers[j])) {
            isOneFatherOfNodeSatisfied := true;
          }
          j := j + 1;
        }
        if isOneFatherOfNodeSatisfied {
          var k :| 0 <= k < |fathers| && hooks.isFatherNodeSatisfied(s, FatherOn(g, reversed, fathers[k]));
          assert fathers[k] in fathers;
          assert IsInEdgeOf(g, reversed, fathers[k], node);
        } else {
          forall e: EdgeId | IsInEdgeOf(g, reversed, e, node)
            ensures !hooks.isFatherNodeSatisfied(s, FatherOn(g, reversed, e))
          {
            assert e in fathers;
            var k :| 0 <= k < |fathers| && fathers[k] == e;
          }
        }
        handle := isOneFatherOfNodeSatisfied;
      }
      assert handle == Qualifies(g, reversed, hooks, s, node);
      if handle {
        var next := hooks.nodeHandler(s, node);
        if next.Err? {
          WalkFailureSticks(g, reversed, order, hooks, s0, i + 1);
          return next;
        }
        s := next.value;
      }
      i := i + 1;
    }
    assert order[..i] == order;
    r := Ok(s);
  }
}
