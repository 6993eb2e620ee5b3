/** The first half of InsertFakeQuantOp: the edges that need a fake-quant marker
    (white_set_edges). */
module EdgeSelection {
  import opened Wrappers
  import opened OpGraphs
  import opened QatLists
  import opened WhiteSet

  /** `n` is a conv2d whose only out-edge feeds a relu. */
  predicate IsConvReluPair(g: OpGraph, n: NodeId)
    requires n < |g.nodes|
  {
    UserOpTypeName(g.nodes[n].conf) == "conv2d" && |OutEdges(g, n)| == 1 &&
    g.edges[OutEdges(g, n)[0]].dst < |g.nodes| &&
    UserOpTypeName(g.nodes[g.edges[OutEdges(g, n)[0]].dst].conf) == "relu"
  }

  /** GetInferenceOutputNode: the node whose outputs leave the region computed at `n`:
      the relu fused after a conv2d whose only out-edge feeds it, otherwise `n` itself. */
  function GetInferenceOutputNode(g: OpGraph, n: NodeId): (r: NodeId)
    requires n < |g.nodes|
    ensures r < |g.nodes|
    ensures r != n ==>
      UserOpTypeName(g.nodes[n].conf) == "conv2d" && UserOpTypeName(g.nodes[r].conf) == "relu" &&
      |OutEdges(g, n)| == 1 && g.edges[OutEdges(g, n)[0]].dst == r
    ensures IsConvReluPair(g, n) ==> r != n && r == g.edges[OutEdges(g, n)[0]].dst
  {
    if IsConvReluPair(g, n) then g.edges[OutEdges(g, n)[0]].dst else n
  }

  /** Entry marker: an in-edge of an Int8 node whose source is not white. */
  predicate IsEntryEdge(g: OpGraph, lists: QatLists, w: set<NodeId>, e: EdgeId) {
    e < |g.edges| && IsInt8(g, lists, g.edges[e].dst) && g.edges[e].src !in w
  }

  /** Exit marker: an out-edge of the inference output node of some Int8 node. */
  ghost predicate IsExitEdge(g: OpGraph, lists: QatLists, e: EdgeId) {
    e < |g.edges| &&
    exists n: NodeId :: n < |g.nodes| && IsInt8(g, lists, n) && g.edges[e].src == GetInferenceOutputNode(g, n)
  }

  /** The members of `es[..j]` whose source is not white, in order. */
  function NotWhiteSourced(g: OpGraph, w: set<NodeId>, es: seq<EdgeId>, j: nat): seq<EdgeId>
    requires j <= |es|
  {
    if j == 0 then []
    else
      var last := es[j - 1];
      NotWhiteSourced(g, w, es, j - 1) + (if last < |g.edges| && g.edges[last].src !in w then [last] else [])
  }

  lemma {:induction false} NotWhiteSourcedMembers(g: OpGraph, w: set<NodeId>, es: seq<EdgeId>, j: nat, e: EdgeId)
    requires j <= |es|
    ensures e in NotWhiteSourced(g, w, es, j) <==>
      e in es[..j] && e < |g.edges| && g.edges[e].src !in w
  {
    if j > 0 {
      NotWhiteSourcedMembers(g, w, es, j - 1, e);
      assert es[..j] == es[..j - 1] + [es[j - 1]];
    }
  }

  lemma {:induction false} NotWhiteSourcedPrefix(g: OpGraph, w: set<NodeId>, es: seq<EdgeId>, j: nat, k: nat)
    requires j <= k <= |es|
    ensures NotWhiteSourced(g, w, es, j) <= NotWhiteSourced(g, w, es, k)
    decreases k - j
  {
    if j < k {
      NotWhiteSourcedPrefix(g, w, es, j, k - 1);
    }
  }

  /** The insertion attempts made on node `n`, in the order the loops make them. */
  function NodeAttempts(g: OpGraph, lists: QatLists, w: set<NodeId>, n: NodeId): (r: seq<EdgeId>)
    requires n < |g.nodes|
  {
    if IsInt8(g, lists, n) then
      NotWhiteSourced(g, w, InEdges(g, n), |InEdges(g, n)|) + OutEdges(g, GetInferenceOutputNode(g, n))
    else []
  }

  /** The edges attempted on `n`: when `n` is Int8, its entry edges and the out-edges of
      its inference output node. */
  lemma NodeAttemptsMembers(g: OpGraph, lists: QatLists, w: set<NodeId>, n: NodeId, e: EdgeId)
    requires n < |g.nodes|
    ensures e in NodeAttempts(g, lists, w, n) <==>
      IsInt8(g, lists, n) && e < |g.edges| &&
      ((g.edges[e].dst == n && IsEntryEdge(g, lists, w, e)) || g.edges[e].src == GetInferenceOutputNode(g, n))
  {
    var ins := InEdges(g, n);
    NotWhiteSourcedMembers(g, w, ins, |ins|, e);
    assert ins[..|ins|] == ins;
  }

  /** The concatenation of `parts`. */
  function Flatten(parts: seq<seq<EdgeId>>): seq<EdgeId> {
    if parts == [] then [] else Flatten(parts[..|parts| - 1]) + parts[|parts| - 1]
  }

  /** An element of the concatenation is an element of one of the parts. */
  lemma {:induction false} FlattenMembers(parts: seq<seq<EdgeId>>, e: EdgeId)
    ensures e in Flatten(parts) <==> exists n :: 0 <= n < |parts| && e in parts[n]
  {
    if parts != [] {
      var init := parts[..|parts| - 1];
      FlattenMembers(init, e);
      if e in Flatten(init) {
        var n :| 0 <= n < |init| && e in init[n];
        assert e in parts[n];
      }
      if n :| 0 <= n < |parts| && e in parts[n] {
        if n < |init| { assert e in init[n]; }
      }
    }
  }

  lemma {:induction false} FlattenPrefix(parts: seq<seq<EdgeId>>, j: nat, k: nat)
    requires j <= k <= |parts|
    ensures Flatten(parts[..j]) <= Flatten(parts[..k])
    decreases k - j
  {
    if j < k {
      FlattenPrefix(parts, j, k - 1);
      assert parts[..k][..k - 1] == parts[..k - 1];
    }
  }

  lemma FlattenStep(parts: seq<seq<EdgeId>>, k: nat)
    requires k < |parts|
    ensures Flatten(parts[..k + 1]) == Flatten(parts[..k]) + parts[k]
  {
    assert parts[..k + 1][..k] == parts[..k];
  }

  /** A prefix of the parts flattens to a prefix of the whole. */
  lemma FlattenPrefixOfWhole(parts: seq<seq<EdgeId>>, k: nat)
    requires k <= |parts|
    ensures Flatten(parts[..k]) <= Flatten(parts)
  {
    FlattenPrefix(parts, k, |parts|);
    assert parts[..|parts|] == parts;
  }

  /** Where the `k`-th element of part `n` lands in the concatenation. */
  lemma FlattenAt(parts: seq<seq<EdgeId>>, n: nat, k: nat)
    requires n < |parts| && k < |parts[n]|
    ensures |Flatten(parts[..n])| + k < |Flatten(parts[..n + 1])| <= |Flatten(parts)|
    ensures Flatten(parts)[|Flatten(parts[..n])| + k] == parts[n][k]
  {
    FlattenStep(parts, n);
    FlattenPrefixOfWhole(parts, n + 1);
    var through := Flatten(parts[..n + 1]);
    assert through[|Flatten(parts[..n])| + k] == parts[n][k];
  }

  /** An element of two different parts occurs twice in the concatenation. */
  lemma FlattenTwice(parts: seq<seq<EdgeId>>, a: nat, b: nat, e: EdgeId)
    requires a < b < |parts| && e in parts[a] && e in parts[b]
    ensures exists i, j :: 0 <= i < j < |Flatten(parts)| && Flatten(parts)[i] == e && Flatten(parts)[j] == e
    ensures !NoDup(Flatten(parts))
  {
    var k :| 0 <= k < |parts[a]| && parts[a][k] == e;
    var l :| 0 <= l < |parts[b]| && parts[b][l] == e;
    FlattenAt(parts, a, k);
    FlattenAt(parts, b, l);
    FlattenPrefix(parts, a + 1, b);
    var i := |Flatten(parts[..a])| + k;
    var j := |Flatten(parts[..b])| + l;
    assert i < j && Flatten(parts)[i] == Flatten(parts)[j];
  }

  /** The attempts of every node, in node id order (the ForEachNode order). */
  function AttemptsByNode(g: OpGraph, lists: QatLists, w: set<NodeId>): (r: seq<seq<EdgeId>>)
    ensures |r| == |g.nodes|
    ensures forall n :: 0 <= n < |g.nodes| ==> r[n] == NodeAttempts(g, lists, w, n)
  {
    seq(|g.nodes|, n requires 0 <= n < |g.nodes| => NodeAttempts(g, lists, w, n))
  }

  /** All insertion attempts into white_set_edges, in the order they are made. */
  function Attempts(g: OpGraph, lists: QatLists, w: set<NodeId>): seq<EdgeId> {
    Flatten(AttemptsByNode(g, lists, w))
  }

  /** The selected edges: every entry edge and every exit edge. */
  ghost function SelectedEdges(g: OpGraph, lists: QatLists, w: set<NodeId>): set<EdgeId> {
    set e: EdgeId | e < |g.edges| && (IsEntryEdge(g, lists, w, e) || IsExitEdge(g, lists, e))
  }

  /** The distinct attempts are exactly the selected edges. */
  lemma AllAttempts(g: OpGraph, lists: QatLists, w: set<NodeId>)
    ensures forall e :: e in Attempts(g, lists, w) <==> e in SelectedEdges(g, lists, w)
  {
    var parts := AttemptsByNode(g, lists, w);
    forall e: EdgeId
      ensures e in Attempts(g, lists, w) <==> e in SelectedEdges(g, lists, w)
    {
      FlattenMembers(parts, e);
      if e in Attempts(g, lists, w) {
        var n :| 0 <= n < |parts| && e in parts[n];
        NodeAttemptsMembers(g, lists, w, n, e);
      }
      if e in SelectedEdges(g, lists, w) {
        if IsEntryEdge(g, lists, w, e) {
          NodeAttemptsMembers(g, lists, w, g.edges[e].dst, e);
          assert e in parts[g.edges[e].dst];
        } else {
          var n: NodeId :| n < |g.nodes| && IsInt8(g, lists, n) && g.edges[e].src == GetInferenceOutputNode(g, n);
          NodeAttemptsMembers(g, lists, w, n, e);
          assert e in parts[n];
        }
      }
    }
  }

  /** An edge from a non-white Int8 node into another Int8 node is selected twice -- as an
      exit edge of its source and as an entry edge of its destination -- so the
      INSERT_CHECK on white_set_edges fires. */
  lemma Int8ToInt8EdgeAborts(g: OpGraph, lists: QatLists, w: set<NodeId>, e: EdgeId)
    requires Valid(g) && e < |g.edges| && "relu" !in lists.int8
    requires IsInt8(g, lists, g.edges[e].src) && IsInt8(g, lists, g.edges[e].dst)
    requires g.edges[e].src != g.edges[e].dst && g.edges[e].src !in w
    ensures exists i, j :: (0 <= i < j < |Attempts(g, lists, w)| &&
      Attempts(g, lists, w)[i] == e && Attempts(g, lists, w)[j] == e)
    ensures !NoDup(Attempts(g, lists, w))
  {
    var s, d := g.edges[e].src, g.edges[e].dst;
    var parts := AttemptsByNode(g, lists, w);
    assert Attempts(g, lists, w) == Flatten(parts);
    var outs := OutEdges(g, s);
    assert e in outs;
    if |outs| == 1 {
      assert outs[0] == e;
    }
    assert GetInferenceOutputNode(g, s) == s;
    NodeAttemptsMembers(g, lists, w, s, e);
    NodeAttemptsMembers(g, lists, w, d, e);
    assert e in parts[s] && e in parts[d];
    if s < d {
      FlattenTwice(parts, s, d, e);
    } else {
      FlattenTwice(parts, d, s, e);
    }
  }

  /** Two different Int8 nodes share an inference output node that has an out-edge:
      that out-edge is an exit edge of both. */
  ghost predicate SharedInferenceOutput(g: OpGraph, lists: QatLists, a: NodeId, b: NodeId) {
    a < |g.nodes| && b < |g.nodes| && a != b && IsInt8(g, lists, a) && IsInt8(g, lists, b) &&
    GetInferenceOutputNode(g, a) == GetInferenceOutputNode(g, b) &&
    |OutEdges(g, GetInferenceOutputNode(g, a))| > 0
  }

  /** The graph shapes on which the selection loop inserts some edge twice: an edge that
      is both an entry edge and an exit edge, or two Int8 nodes with one inference output
      node that has an out-edge. */
  ghost predicate SelectionClash(g: OpGraph, lists: QatLists, w: set<NodeId>) {
    (exists e: EdgeId :: IsEntryEdge(g, lists, w, e) && IsExitEdge(g, lists, e)) ||
    (exists a: NodeId, b: NodeId :: SharedInferenceOutput(g, lists, a, b))
  }

  /** The attempts repeat an edge exactly on the graph shapes of SelectionClash. */
  lemma AttemptsRepeatIff(g: OpGraph, lists: QatLists, w: set<NodeId>)
    ensures !NoDup(Attempts(g, lists, w)) <==> SelectionClash(g, lists, w)
  {
    if SelectionClash(g, lists, w) {
      ClashRepeats(g, lists, w);
    }
    if !NoDup(Attempts(g, lists, w)) {
      RepeatClashes(g, lists, w);
    }
  }

  lemma ClashRepeats(g: OpGraph, lists: QatLists, w: set<NodeId>)
    requires SelectionClash(g, lists, w)
    ensures !NoDup(Attempts(g, lists, w))
  {
    var parts := AttemptsByNode(g, lists, w);
    if e: EdgeId :| IsEntryEdge(g, lists, w, e) && IsExitEdge(g, lists, e) {
      var d := g.edges[e].dst;
      var n: NodeId :| n < |g.nodes| && IsInt8(g, lists, n) && g.edges[e].src == GetInferenceOutputNode(g, n);
      NodeAttemptsMembers(g, lists, w, d, e);
      NodeAttemptsMembers(g, lists, w, n, e);
      if d < n {
        FlattenTwice(parts, d, n, e);
      } else if n < d {
        FlattenTwice(parts, n, d, e);
      } else {
        EntryAndExitOfOneNode(g, lists, w, n, e);
      }
    } else {
      var a: NodeId, b: NodeId :| SharedInferenceOutput(g, lists, a, b);
      var e := OutEdges(g, GetInferenceOutputNode(g, a))[0];
      assert e in OutEdges(g, GetInferenceOutputNode(g, a));
      NodeAttemptsMembers(g, lists, w, a, e);
      NodeAttemptsMembers(g, lists, w, b, e);
      if a < b {
        FlattenTwice(parts, a, b, e);
      } else {
        FlattenTwice(parts, b, a, e);
      }
    }
  }

  /** An in-edge of Int8 node `n` from a non-white source that also leaves the inference
      output node of `n` is attempted twice in the round of `n`. */
  lemma EntryAndExitOfOneNode(g: OpGraph, lists: QatLists, w: set<NodeId>, n: NodeId, e: EdgeId)
    requires n < |g.nodes| && IsInt8(g, lists, n) && IsEntryEdge(g, lists, w, e) && g.edges[e].dst == n
    requires g.edges[e].src == GetInferenceOutputNode(g, n)
    ensures !NoDup(Attempts(g, lists, w))
  {
    var parts := AttemptsByNode(g, lists, w);
    var ins := InEdges(g, n);
    var entries := NotWhiteSourced(g, w, ins, |ins|);
    var outs := OutEdges(g, GetInferenceOutputNode(g, n));
    assert ins[..|ins|] == ins;
    NotWhiteSourcedMembers(g, w, ins, |ins|, e);
    assert e in entries && e in outs;
    var k :| 0 <= k < |entries| && entries[k] == e;
    var l :| 0 <= l < |outs| && outs[l] == e;
    assert parts[n] == entries + outs;
    assert parts[n][k] == e && parts[n][|entries| + l] == e;
    FlattenSamePart(parts, n, k, |entries| + l);
  }

  lemma RepeatClashes(g: OpGraph, lists: QatLists, w: set<NodeId>)
    requires !NoDup(Attempts(g, lists, w))
    ensures SelectionClash(g, lists, w)
  {
    var parts := AttemptsByNode(g, lists, w);
    var whole := Flatten(parts);
    var i, j :| 0 <= i < j < |whole| && whole[i] == whole[j];
    var e := whole[i];
    var a, k := FlattenLocate(parts, i);
    var b, l := FlattenLocate(parts, j);
    if a == b {
      RepeatInOneRound(g, lists, w, a, k, l);
    } else {
      assert e in parts[a] && e in parts[b];
      NodeAttemptsMembers(g, lists, w, a, e);
      NodeAttemptsMembers(g, lists, w, b, e);
      if g.edges[e].src == GetInferenceOutputNode(g, a) && g.edges[e].src == GetInferenceOutputNode(g, b) {
        assert e in OutEdges(g, GetInferenceOutputNode(g, a));
        assert SharedInferenceOutput(g, lists, a, b);
      } else if g.edges[e].src == GetInferenceOutputNode(g, a) {
        assert IsEntryEdge(g, lists, w, e) && IsExitEdge(g, lists, e);
      } else {
        assert IsEntryEdge(g, lists, w, e) && IsExitEdge(g, lists, e);
      }
    }
  }

  /** Two attempts of one node's round that insert the same edge: the edge is one of the
      node's own entry edges and leaves its inference output node, since neither list
      repeats an edge. */
  lemma RepeatInOneRound(g: OpGraph, lists: QatLists, w: set<NodeId>, n: nat, k: nat, l: nat)
    requires n < |g.nodes| && k < l < |NodeAttempts(g, lists, w, n)|
    requires NodeAttempts(g, lists, w, n)[k] == NodeAttempts(g, lists, w, n)[l]
    ensures var e := NodeAttempts(g, lists, w, n)[k];
      e < |g.edges| && g.edges[e].dst == n && IsEntryEdge(g, lists, w, e) &&
      g.edges[e].src == GetInferenceOutputNode(g, n)
    ensures exists e: EdgeId :: IsEntryEdge(g, lists, w, e) && IsExitEdge(g, lists, e)
  {
    var ins := InEdges(g, n);
    var entries := NotWhiteSourced(g, w, ins, |ins|);
    var outs := OutEdges(g, GetInferenceOutputNode(g, n));
    var round := entries + outs;
    assert NodeAttempts(g, lists, w, n) == round;
    InEdgesUpToNoDup(g, n, |g.edges|);
    OutEdgesUpToNoDup(g, GetInferenceOutputNode(g, n), |g.edges|);
    NotWhiteSourcedNoDup(g, w, ins, |ins|);
    var e := round[k];
    if l < |entries| {
      assert false;
    } else if |entries| <= k {
      assert false;
    } else {
      assert e in entries && e in outs;
      assert ins[..|ins|] == ins;
      NotWhiteSourcedMembers(g, w, ins, |ins|, e);
      assert IsEntryEdge(g, lists, w, e) && IsExitEdge(g, lists, e);
    }
  }

  /** Keeping the members of a duplicate-free sequence keeps it duplicate-free. */
  lemma {:induction false} NotWhiteSourcedNoDup(g: OpGraph, w: set<NodeId>, es: seq<EdgeId>, j: nat)
    requires j <= |es| && NoDup(es)
    ensures NoDup(NotWhiteSourced(g, w, es, j))
  {
    if j > 0 {
      NotWhiteSourcedNoDup(g, w, es, j - 1);
      var last := es[j - 1];
      NotWhiteSourcedMembers(g, w, es, j - 1, last);
      assert last !in es[..j - 1];
    }
  }

  /** The position `i` of the concatenation is position `k` of part `n`. */
  lemma {:induction false} FlattenLocate(parts: seq<seq<EdgeId>>, i: nat) returns (n: nat, k: nat)
    requires i < |Flatten(parts)|
    ensures n < |parts| && k < |parts[n]| && i == |Flatten(parts[..n])| + k
    ensures Flatten(parts)[i] == parts[n][k]
  {
    var init := parts[..|parts| - 1];
    if i < |Flatten(init)| {
      n, k := FlattenLocate(init, i);
      assert init[..n] == parts[..n] && init[n] == parts[n];
    } else {
      n, k := |parts| - 1, i - |Flatten(init)|;
      assert parts[..n] == init;
    }
  }

  /** An element repeated within one part is repeated in the concatenation. */
  lemma FlattenSamePart(parts: seq<seq<EdgeId>>, n: nat, k: nat, l: nat)
    requires n < |parts| && k < l < |parts[n]| && parts[n][k] == parts[n][l]
    ensures !NoDup(Flatten(parts))
  {
    FlattenAt(parts, n, k);
    FlattenAt(parts, n, l);
  }

  /** The edge-selection loop of InsertFakeQuantOp, over the nodes in id order; each
      insertion into white_set_edges is INSERT_CHECKed. */
  method SelectEdges(g: OpGraph, lists: QatLists, w: set<NodeId>) returns (r: Result<set<EdgeId>, QatError>)
    ensures r.Ok? <==> NoDup(Attempts(g, lists, w))
    ensures r.Ok? <==> !SelectionClash(g, lists, w)
    ensures r.Err? ==> r.error == DuplicateSelectedEdge
    ensures r.Ok? ==> r.value == SelectedEdges(g, lists, w)
  {
    AttemptsRepeatIff(g, lists, w);
    ghost var parts := AttemptsByNode(g, lists, w);
    ghost var full := Attempts(g, lists, w);
    assert parts[..|parts|] == parts;
    var selected: set<EdgeId> := {};
    ghost var attempts: seq<EdgeId> := [];
    for n := 0 to |g.nodes|
      invariant attempts == Flatten(parts[..n])
      invariant NoDup(attempts)
      invariant forall e :: e in selected <==> e in attempts
    {
      FlattenPrefix(parts, n + 1, |parts|);
      FlattenStep(parts, n);
      var step;
      step, attempts := SelectAtNode(g, lists, w, n, selected, attempts, full);
      if step.Err? {
        return step;
      }
      selected := step.value;
    }
    assert attempts == full;
    AllAttempts(g, lists, w);
    r := Ok(selected);
  }

  /** The body of the edge-selection loop for node `n`: its entry edges, then the out-edges
      of its inference output node, each inserted with the INSERT_CHECK. `done` are the
      attempts made before, `full` all attempts of the loop. */
  method SelectAtNode(g: OpGraph, lists: QatLists, w: set<NodeId>, n: NodeId, selected: set<EdgeId>,
                      ghost done: seq<EdgeId>, ghost full: seq<EdgeId>)
    returns (r: Result<set<EdgeId>, QatError>, ghost after: seq<EdgeId>)
    requires n < |g.nodes| && done + NodeAttempts(g, lists, w, n) <= full
    requires NoDup(done) && forall e :: e in selected <==> e in done
    ensures r.Err? ==> r.error == DuplicateSelectedEdge && !NoDup(full)
    ensures r.Ok? ==> after == done + NodeAttempts(g, lists, w, n) && NoDup(after)
    ensures r.Ok? ==> forall e :: e in r.value <==> e in after
  {
    after := done;
    var acc := selected;
    if IsNodeInList(lists.int8, g.nodes[n]) {
      var ins := InEdges(g, n);
      var outs := OutEdges(g, GetInferenceOutputNode(g, n));
      assert done + NotWhiteSourced(g, w, ins, |ins|) + outs <= full;
      var step;
      step, after := InsertEntries(g, w, ins, acc, done, full);
      if step.Err? {
        return step, after;
      }
      acc := step.value;
      assert after + outs <= full;
      r, after := InsertEach(outs, acc, after, full);
      return;
    }
    r := Ok(acc);
  }

  /** Inserts the entry edges among `ins`, those whose source is not white, into `acc`,
      INSERT_CHECKing each insertion. */
  method InsertEntries(g: OpGraph, w: set<NodeId>, ins: seq<EdgeId>, acc: set<EdgeId>,
                       ghost done: seq<EdgeId>, ghost full: seq<EdgeId>)
    returns (r: Result<set<EdgeId>, QatError>, ghost after: seq<EdgeId>)
    requires forall j :: 0 <= j < |ins| ==> ins[j] < |g.edges|
    requires done + NotWhiteSourced(g, w, ins, |ins|) <= full
    requires NoDup(done) && forall e :: e in acc <==> e in done
    ensures r.Err? ==> r.error == DuplicateSelectedEdge && !NoDup(full)
    ensures r.Ok? ==> after == done + NotWhiteSourced(g, w, ins, |ins|) && NoDup(after)
    ensures r.Ok? ==> forall e :: e in r.value <==> e in after
  {
    after := done;
    var s := acc;
    for j := 0 to |ins|
      invariant after == done + NotWhiteSourced(g, w, ins, j)
      invariant NoDup(after)
      invariant forall e :: e in s <==> e in after
    {
      var edge := ins[j];
      if !IsKeyFound(w, g.edges[edge].src) {
        NotWhiteSourcedPrefix(g, w, ins, j + 1, |ins|);
        assert after + [edge] <= done + NotWhiteSourced(g, w, ins, |ins|);
        if edge in s {
          DuplicateInPrefix(after, edge, full);
          return Err(DuplicateSelectedEdge), after;
        }
        s := s + {edge};
        after := after + [edge];
      }
    }
    r := Ok(s);
  }

  /** Inserts every edge of `es` into `acc`, INSERT_CHECKing each insertion. */
  method InsertEach(es: seq<EdgeId>, acc: set<EdgeId>, ghost done: seq<EdgeId>, ghost full: seq<EdgeId>)
    returns (r: Result<set<EdgeId>, QatError>, ghost after: seq<EdgeId>)
    requires done + es <= full
    requires NoDup(done) && forall e :: e in acc <==> e in done
    ensures r.Err? ==> r.error == DuplicateSelectedEdge && !NoDup(full)
    ensures r.Ok? ==> after == done + es && NoDup(after)
    ensures r.Ok? ==> forall e :: e in r.value <==> e in after
  {
    after := done;
    var s := acc;
    for j := 0 to |es|
      invariant after == done + es[..j]
      invariant NoDup(after)
      invariant forall e :: e in s <==> e in after
    {
      var edge := es[j];
      assert es[..j + 1] == es[..j] + [edge];
      assert after + [edge] <= done + es;
      if edge in s {
        DuplicateInPrefix(after, edge, full);
        return Err(DuplicateSelectedEdge), after;
      }
      s := s + {edge};
      after := after + [edge];
    }
    assert es[..|es|] == es;
    r := Ok(s);
  }

  /** A repeated element in a prefix is a repeated element of the whole. */
  lemma DuplicateInPrefix(s: seq<EdgeId>, x: EdgeId, t: seq<EdgeId>)
    requires x in s && s + [x] <= t
    ensures !NoDup(t)
  {
    var i :| 0 <= i < |s| && s[i] == x;
    assert t[i] == x && t[|s|] == x;
  }
}
