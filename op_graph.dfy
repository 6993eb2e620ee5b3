/** The read-only operator graph the pass consumes: nodes with their operator
    configuration, blobs and placement, edges carrying logical blobs. */
module OpGraphs {
  import opened Wrappers

  type NodeId = nat
  type EdgeId = nat

  datatype DataType = Float | Double | Float16 | Int8 | Int32 | Int64 | UInt8 | Char | InvalidDataType

  /** The placement of an operator (its parallel conf). */
  datatype ParallelConf = ParallelConf(deviceTag: string, deviceNames: seq<string>)

  /** An operator configuration: its name, the op_type_name of its user_conf when it is a
      user op (`None` when it has no user_conf), its inputs by input blob name (ibn) to
      logical blob name (lbn), and its output blob names. */
  datatype OperatorConf = OperatorConf(
    name: string,
    userOpType: Option<string>,
    inputs: map<string, string>,
    outputs: seq<string>)

  /** A node: its configuration, the data type of each logical blob it produces
      (LogicalBlobDesc4Lbi, by lbn) and its placement. */
  datatype OpNode = OpNode(conf: OperatorConf, blobs: map<string, DataType>, placement: ParallelConf)

  /** An edge from the producer `src` to the consumer `dst`: the logical blobs it carries
      (by lbn) and, per blob, the input slots of `dst` that consume it. */
  datatype OpEdge = OpEdge(src: NodeId, dst: NodeId, lbis: seq<string>, lbi2ibns: map<string, seq<string>>)

  datatype OpGraph = OpGraph(nodes: seq<OpNode>, edges: seq<OpEdge>)

  /** `user_conf().op_type_name()`: the protobuf default "" for an op without a user_conf. */
  function UserOpTypeName(conf: OperatorConf): string {
    match conf.userOpType
    case Some(t) => t
    case None => ""
  }

  /** The invariants the framework keeps for every OpGraph it builds. */
  ghost predicate Valid(g: OpGraph) {
    EdgesInGraph(g) && OneEdgePerPair(g) && BlobsOfSource(g) && UniqueNames(g) &&
    UniqueProducers(g) && SlotsBound(g)
  }

  /** Every edge joins two nodes of the graph. */
  ghost predicate EdgesInGraph(g: OpGraph) {
    forall e :: 0 <= e < |g.edges| ==> g.edges[e].src < |g.nodes| && g.edges[e].dst < |g.nodes|
  }

  /** There is one edge per producer and consumer pair. */
  ghost predicate OneEdgePerPair(g: OpGraph) {
    forall a, b :: 0 <= a < b < |g.edges| ==>
      g.edges[a].src != g.edges[b].src || g.edges[a].dst != g.edges[b].dst
  }

  /** An edge carries only blobs its source produces. */
  ghost predicate BlobsOfSource(g: OpGraph) {
    forall e, k :: 0 <= e < |g.edges| && 0 <= k < |g.edges[e].lbis| ==>
      g.edges[e].src < |g.nodes| && g.edges[e].lbis[k] in g.nodes[g.edges[e].src].blobs
  }

  /** Op names are unique. */
  ghost predicate UniqueNames(g: OpGraph) {
    forall a, b :: 0 <= a < |g.nodes| && 0 <= b < |g.nodes| && a != b ==>
      g.nodes[a].conf.name != g.nodes[b].conf.name
  }

  /** Every lbn has one producer. */
  ghost predicate UniqueProducers(g: OpGraph) {
    forall a, b :: 0 <= a < |g.nodes| && 0 <= b < |g.nodes| && a != b ==>
      g.nodes[a].blobs.Keys !! g.nodes[b].blobs.Keys
  }

  /** Each consuming slot recorded on an edge is bound to that lbn in the consumer's conf. */
  ghost predicate SlotsBound(g: OpGraph) {
    forall e, l, k :: 0 <= e < |g.edges| && l in g.edges[e].lbi2ibns && 0 <= k < |g.edges[e].lbi2ibns[l]| ==>
      g.edges[e].dst < |g.nodes| &&
      g.edges[e].lbi2ibns[l][k] in g.nodes[g.edges[e].dst].conf.inputs &&
      g.nodes[g.edges[e].dst].conf.inputs[g.edges[e].lbi2ibns[l][k]] == l
  }

  predicate HasEdge(g: OpGraph, a: NodeId, b: NodeId) {
    exists e :: 0 <= e < |g.edges| && g.edges[e].src == a && g.edges[e].dst == b
  }

  /** `order` lists every node once, and no edge leads from a node to itself or to
      an earlier node: the order DfsTopoForEachNode visits the graph in. */
  ghost predicate IsTopoOrder(g: OpGraph, order: seq<NodeId>) {
    (forall i :: 0 <= i < |order| ==> order[i] < |g.nodes|)
    && (forall n :: 0 <= n < |g.nodes| ==> n in order)
    && NoDup(order)
    && (forall i, j, e :: 0 <= i <= j < |order| && 0 <= e < |g.edges| ==>
          !(g.edges[e].src == order[j] && g.edges[e].dst == order[i]))
  }

  /** The ids of the first `k` edges that enter `n`, in id order. */
  function InEdgesUpTo(g: OpGraph, n: NodeId, k: nat): (r: seq<EdgeId>)
    requires k <= |g.edges|
    ensures forall i :: 0 <= i < |r| ==> r[i] < k
    ensures forall e: EdgeId {:trigger e in r} :: e in r <==> e < k && g.edges[e].dst == n
  {
    if k == 0 then []
    else if g.edges[k - 1].dst == n then InEdgesUpTo(g, n, k - 1) + [k - 1]
    else InEdgesUpTo(g, n, k - 1)
  }

  /** The ids of the first `k` edges that leave `n`, in id order. */
  function OutEdgesUpTo(g: OpGraph, n: NodeId, k: nat): (r: seq<EdgeId>)
    requires k <= |g.edges|
    ensures forall i :: 0 <= i < |r| ==> r[i] < k
    ensures forall e: EdgeId {:trigger e in r} :: e in r <==> e < k && g.edges[e].src == n
  {
    if k == 0 then []
    else if g.edges[k - 1].src == n then OutEdgesUpTo(g, n, k - 1) + [k - 1]
    else OutEdgesUpTo(g, n, k - 1)
  }

  /** The in-edges of `n`, in id order. */
  function InEdges(g: OpGraph, n: NodeId): (r: seq<EdgeId>)
    ensures forall i :: 0 <= i < |r| ==> r[i] < |g.edges|
    ensures forall e: EdgeId {:trigger e in r} :: e in r <==> e < |g.edges| && g.edges[e].dst == n
  {
    InEdgesUpTo(g, n, |g.edges|)
  }

  /** The out-edges of `n`, in id order. */
  function OutEdges(g: OpGraph, n: NodeId): (r: seq<EdgeId>)
    ensures forall i :: 0 <= i < |r| ==> r[i] < |g.edges|
    ensures forall e: EdgeId {:trigger e in r} :: e in r <==> e < |g.edges| && g.edges[e].src == n
  {
    OutEdgesUpTo(g, n, |g.edges|)
  }

  /** No edge is listed twice among the in-edges of `n`. */
  lemma {:induction false} InEdgesUpToNoDup(g: OpGraph, n: NodeId, k: nat)
    requires k <= |g.edges|
    ensures NoDup(InEdgesUpTo(g, n, k))
  {
    if k > 0 {
      InEdgesUpToNoDup(g, n, k - 1);
    }
  }

  /** No edge is listed twice among the out-edges of `n`. */
  lemma {:induction false} OutEdgesUpToNoDup(g: OpGraph, n: NodeId, k: nat)
    requires k <= |g.edges|
    ensures NoDup(OutEdgesUpTo(g, n, k))
  {
    if k > 0 {
      OutEdgesUpToNoDup(g, n, k - 1);
    }
  }

  /** In a topological order, the source of an edge comes strictly before its destination. */
  lemma TopoEdgeEarlier(g: OpGraph, order: seq<NodeId>, e: EdgeId, i: nat, j: nat)
    requires IsTopoOrder(g, order)
    requires e < |g.edges| && i < |order| && j < |order|
    requires order[i] == g.edges[e].src && order[j] == g.edges[e].dst
    ensures i < j
  {
  }

  /** Under the framework invariants an lbn has one producer. */
  lemma OneProducer(g: OpGraph, a: NodeId, b: NodeId, l: string)
    requires UniqueProducers(g) && a < |g.nodes| && b < |g.nodes|
    requires l in g.nodes[a].blobs && l in g.nodes[b].blobs
    ensures a == b
  {
  }

  /** Under the framework invariants an op name names one node. */
  lemma OneNodePerName(g: OpGraph, a: NodeId, b: NodeId)
    requires UniqueNames(g) && a < |g.nodes| && b < |g.nodes|
    requires g.nodes[a].conf.name == g.nodes[b].conf.name
    ensures a == b
  {
  }

  /** Under the framework invariants a producer and a consumer share at most one edge. */
  lemma SameEndsSameEdge(g: OpGraph, e1: EdgeId, e2: EdgeId)
    requires OneEdgePerPair(g) && e1 < |g.edges| && e2 < |g.edges|
    requires g.edges[e1].src == g.edges[e2].src && g.edges[e1].dst == g.edges[e2].dst
    ensures e1 == e2
  {
  }
}
