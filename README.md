# QuantAwareTraining: the fake-quant insertion pass, modelled in Dafny

OneFlow's `QuantAwareTraining` is a job-rewrite pass for quantization-aware training. It
runs over the read-only operator graph (`OpGraph`) of a float job and does three things:

1. It classifies operators by their user-op type, using three fixed lists:
   - Int8: matmul, batch_matmul, conv2d, avg_pool_2d, max_pool_2d;
   - ProduceFloat32: empty;
   - Transparent: 26 element-wise and shape operators.
2. It computes the *downstream-white* set with a topological walk. A node is white when it
   is Int8 or Transparent and one of its fathers is Int8 or already white.
3. It puts a fake-quant marker on every edge that enters or leaves int8 territory:
   - The marker is an `identity` op named `<lbn with '/' turned into '-'>-fake-quant`,
     where an lbn is a logical blob name.
   - Entry edges are the in-edges of an Int8 node whose source is not white.
   - Exit edges are the out-edges of the node's *inference output node*: the relu after a
     conv2d whose only out-edge feeds it, and otherwise the node itself.
   - The selected edges are grouped by the lbn they carry.
   - Groups whose blob is not float are skipped.
   - Each consumer of a float group gets a staged copy of its configuration, with the
     consuming slot rewired to the marker's output `<marker>/out_0`.
   - The markers are added through the job builder (`AddOps`).
   - The staged configurations are committed once each (`MutOpsOnlyOnce`).

The model mirrors the source's structure, one module per stage:

| module | file | contents |
|---|---|---|
| `Wrappers` | `wrappers.dfy` | Option, Result, `NoDup`, the error kinds |
| `OpGraphs` | `op_graph.dfy` | the graph, the framework's invariants on it (`Valid`), in- and out-edges |
| `QatLists` | `qat_lists.dfy` | the three lists, `IsKeyFound`, `IsNodeInList` |
| `MarkerNames` | `marker_names.dfy` | `ReplaceSlashToDash4Lbn` and the marker's name, output lbn and configuration |
| `Traversal` | `traversal.dfy` | `DfsTopoGraphTraversal` as a loop over a visiting order, proved equal to a recursive reference walk |
| `WhiteSet` | `white_set.dfy` | the white walk of `Apply`, characterised as reachability over Int8/Transparent chains |
| `EdgeSelection` | `edge_selection.dfy` | `GetInferenceOutputNode` and the edge-selection loop with its INSERT_CHECK |
| `Grouping` | `grouping.dfy` | the grouping of the selected edges by lbn |
| `Rewrites` | `rewrite.dfy` | the group loop (markers, staged consumer copies, `ReplaceInputLbnInOpCustomizedConf`) |
| `JobBuilders` | `job_builder.dfy` | the job builder as a class, with `AddOps` and `MutOpsOnlyOnce` |
| `QuantAwareTraining` | `pass.dfy` | `InsertFakeQuantOp`, `Apply`, and the properties of the committed result |

How the model represents the graph and the pass:
- A node id is the node's index and an edge id is the edge's index. Edge identity stands
  in for the source's `OpEdge*` pointer identity.
- A logical blob id is represented by its lbn.
- The hash containers (`HashSet`, `HashMap`) are visited in an unspecified order. The model
  picks each next element with `:|`, so every postcondition holds for every visiting order.
- Every fatal `CHECK` the input can trip is an `Err` result of the pass.
- The `CHECK`s that the framework's graph invariants guarantee are proved as `assert`s.
  These are that each edge of a group leaves the group's source, that the edge carries the
  group's lbn, and that the rewired slot read that lbn before.
- `IsKeyFound` is set membership; a map is tested through its key set. It is used where
  the source uses it: on the list in `IsNodeInList` (line 85), in the walk's father test
  (line 181), in the entry-edge test (line 221) and on the staged map's keys (line 275).
  The walk's handler and the edge insertions test membership instead. That membership
  stands for the `insert().second` result that the INSERT_CHECKs at lines 184, 223 and
  229 look at.
- `IsKeyFound` has no row of its own under "## Model": any contract for it would only
  restate membership. Its uses are covered by the rows for `QatLists.IsNodeInList`,
  `WhiteSet.WhiteHooksQualify`, `EdgeSelection.NodeAttemptsMembers` and
  `Rewrites.RewireGroup`.

Behaviour of the code worth knowing, which the model states and proves:
- **An edge selected twice aborts the pass.** Every insertion into `white_set_edges` is
  INSERT_CHECKed (lines 223 and 229), so inserting an edge a second time is fatal.
  `EdgeSelection.AttemptsRepeatIff` characterises when this happens, in graph terms:
  - some edge is both an entry edge and an exit edge, or
  - two different Int8 nodes share an inference output node that has an out-edge.

  With the shipped lists only the first shape arises in a real job. The inference output
  node differs from the node itself only for a conv2d whose sole out-edge feeds a relu.
  A relu has one input, so no two conv2d nodes can share it. The second shape needs an op
  with more than one input in the relu's place. The model's graph does not record op
  arities, so `AttemptsRepeatIff` keeps both shapes.

  An edge from a non-white Int8 node into another Int8 node, such as conv2d into
  max_pool_2d, is the first case (`EdgeSelection.Int8ToInt8EdgeAborts`).
- **An Int8 node is white only when a father is Int8 or white.** The walk at lines 175-186
  calls its handler only on a node that is Int8 or Transparent and has such a father, so an
  Int8 node fed by other nodes alone is not white. `WhiteSet.BuildDownstreamWhite` states
  this rule, and `WhiteSet.WhiteFixpointIsChainReach` proves that the rule is the same as
  chain reachability.
- **Two lbns can get the same marker name.** The slash-to-dash replacement is not
  injective (`MarkerNames.ReplaceNotInjective`). Two different lbns can therefore produce
  markers with one op name. The two markers are still different ops, because they read
  different lbns (`QuantAwareTraining.MarkersNamedByLbn`). Whether the job accepts two ops
  with one name is decided by the job builder, which is not part of this model.
- **The marker's slots are `in_0` and `out_0`.** The marker is built with input `in` and
  output `out` (lines 258-259). The user-op builder records these as the indexed slots
  `in_0` and `out_0`, which is why consumers are rewired to `<marker>/out_0` (line 280).
  `MarkerNames.MarkerConf` uses the indexed slot names.

## Model

| member | source | states |
|---|---|---|
| QatLists.DefaultLists | oneflow/core/job_rewriter/quantization_aware_training.cpp:145-148 | the pass is built with the Int8, ProduceFloat32 and Transparent lists |
| QatLists.ListsAsShipped | oneflow/core/job_rewriter/quantization_aware_training.cpp:33-71 | the Int8 and Transparent lists are disjoint; conv2d is Int8 and relu is Transparent; the float32 list is empty; identity, the marker's type, is in no list |
| QatLists.IsNodeInList | oneflow/core/job_rewriter/quantization_aware_training.cpp:82-86 | a node is in a list exactly when it is a user op whose type is listed; a node that is not a user op never is |
| MarkerNames.ReplaceSlashToDash4Lbn | oneflow/core/job_rewriter/quantization_aware_training.cpp:111-114 | same length; each '/' becomes '-' and every other character is kept; the result has no '/' |
| MarkerNames.ReplaceIdempotent | oneflow/core/job_rewriter/quantization_aware_training.cpp:111-114 | replacing twice gives the same as replacing once |
| MarkerNames.ReplaceKeepsSlashFree | oneflow/core/job_rewriter/quantization_aware_training.cpp:111-114 | a name without '/' is unchanged |
| MarkerNames.ReplaceNotInjective | oneflow/core/job_rewriter/quantization_aware_training.cpp:111-114 | two different lbns ("a/b-c" and "a-b/c") give the same replaced name |
| MarkerNames.MarkerName | oneflow/core/job_rewriter/quantization_aware_training.cpp:254-256 | the marker name is the replaced lbn followed by "-fake-quant", and has no '/' |
| MarkerNames.MarkerOutLbn | oneflow/core/job_rewriter/quantization_aware_training.cpp:280 | the marker's output lbn is the marker name followed by "/out_0", and never equals the lbn it replaces |
| MarkerNames.MarkerConf | oneflow/core/job_rewriter/quantization_aware_training.cpp:255-261 | the marker is an identity op named by MarkerName, whose one input slot reads the lbn and whose one output is out_0 |
| Traversal.FatherEdges | oneflow/core/job_rewriter/quantization_aware_training.cpp:122-125 | the father scan runs over exactly the in-edges, or over the out-edges when the walk is reversed |
| Traversal.DfsTopoGraphTraversal | oneflow/core/job_rewriter/quantization_aware_training.cpp:116-140 | the walk loop, including the father scan that stops at the first satisfied father, equals the recursive walk: the handler runs on each start node, and on each satisfied node with a satisfied father, in visiting order; a failing handler ends the walk |
| Traversal.WalkFailureSticks | oneflow/core/job_rewriter/quantization_aware_training.cpp:126-139 | once a prefix of the walk fails, the whole walk fails with the same error |
| WhiteSet.WhiteHooksQualify | oneflow/core/job_rewriter/quantization_aware_training.cpp:175-186 | with the hooks Apply passes, the walk handles a node exactly when it is Int8 or Transparent and has an Int8 or white father; the handler fails exactly on a node already white, and otherwise adds the node |
| WhiteSet.WhiteWalkPrefix | oneflow/core/job_rewriter/quantization_aware_training.cpp:174-186 | over a topological order the white walk never hits its INSERT_CHECK; on the nodes walked so far, a node is white exactly when it is Int8 or Transparent and has an Int8 or white father |
| WhiteSet.BuildDownstreamWhite | oneflow/core/job_rewriter/quantization_aware_training.cpp:174-186 | the white set obeys the white rule both ways; it is exactly the set of nodes reached by an Int8/Transparent chain from an Int8 node; it holds only Int8 or Transparent nodes; a node that is not a user op is never white and never Int8 |
| WhiteSet.WhiteFixpointIsChainReach | oneflow/core/job_rewriter/quantization_aware_training.cpp:174-186 | on an acyclic graph, any set obeying the white rule is exactly the set of chain-reached nodes, so the rule has one solution |
| WhiteSet.WhiteNodeHasChain | oneflow/core/job_rewriter/quantization_aware_training.cpp:177-182 | every white node ends a chain that starts at an Int8 node and runs through Int8 or Transparent nodes |
| WhiteSet.ChainEndIsWhite | oneflow/core/job_rewriter/quantization_aware_training.cpp:177-182 | the end of every such chain is white |
| EdgeSelection.GetInferenceOutputNode | oneflow/core/job_rewriter/quantization_aware_training.cpp:199-207 | the result is the relu that follows a conv2d whose only out-edge feeds it, and the node itself in every other case |
| EdgeSelection.NodeAttemptsMembers | oneflow/core/job_rewriter/quantization_aware_training.cpp:219-230 | the insertions attempted at a node are made only when it is Int8; they are its in-edges from non-white sources and the out-edges of its inference output node |
| EdgeSelection.AllAttempts | oneflow/core/job_rewriter/quantization_aware_training.cpp:217-232 | the attempted edges are exactly the entry edges plus the exit edges |
| EdgeSelection.Int8ToInt8EdgeAborts | oneflow/core/job_rewriter/quantization_aware_training.cpp:219-229 | an edge from a non-white Int8 node into another Int8 node appears twice among the attempts, at two named positions, so the INSERT_CHECK fires |
| EdgeSelection.AttemptsRepeatIff | oneflow/core/job_rewriter/quantization_aware_training.cpp:217-232 | an edge is inserted twice exactly when some edge is both an entry and an exit edge, or two different Int8 nodes share an inference output node with an out-edge |
| EdgeSelection.RepeatInOneRound | oneflow/core/job_rewriter/quantization_aware_training.cpp:219-230 | an edge repeated within node n's round enters n from a non-white source and leaves n's inference output node, so it is an edge that is both an entry and an exit edge |
| EdgeSelection.SelectEdges | oneflow/core/job_rewriter/quantization_aware_training.cpp:217-235 | the selection fails exactly when some edge is attempted twice, that is, exactly on the graph shapes of AttemptsRepeatIff; otherwise it yields the set of entry and exit edges |
| EdgeSelection.SelectAtNode | oneflow/core/job_rewriter/quantization_aware_training.cpp:219-230 | one node's round extends the attempts by exactly that node's attempts, or fails only if the whole attempt sequence repeats an edge |
| EdgeSelection.InsertEntries | oneflow/core/job_rewriter/quantization_aware_training.cpp:220-225 | inserts the in-edges whose source is not white, in order; fails only on a repeated attempt |
| EdgeSelection.InsertEach | oneflow/core/job_rewriter/quantization_aware_training.cpp:227-230 | inserts every out-edge of the inference output node, in order; fails only on a repeated attempt |
| Grouping.GroupByLbn | oneflow/core/job_rewriter/quantization_aware_training.cpp:237-244 | fails exactly when a selected edge carries other than one blob; otherwise each lbn maps to the selected edges carrying it, each edge once, and every selected edge is in its lbn's group |
| Grouping.Push | oneflow/core/job_rewriter/quantization_aware_training.cpp:242 | appends the edge to its lbn's group, creating the group when absent, and leaves the other groups alone |
| Grouping.GroupSharesSource | oneflow/core/job_rewriter/quantization_aware_training.cpp:249-265 | the edges of a group share their source node, which produces the group's lbn |
| Rewrites.OneFeederPerSlot | oneflow/core/job_rewriter/quantization_aware_training.cpp:263-282 | one consumer slot is fed by at most one float edge, so no rewrite finds its slot already rewired |
| Rewrites.ReplaceInputLbn | oneflow/core/job_rewriter/quantization_aware_training.cpp:281 | with the slot present, the slot is pointed at the new lbn and its old lbn is returned; with the slot absent there is no result |
| Rewrites.StageStep | oneflow/core/job_rewriter/quantization_aware_training.cpp:274-281 | the copy a rewrite works on, which is the staged copy or the consumer's own conf on first touch, still reads the edge's lbn at the edge's slot; rewiring that slot stages exactly one edge more |
| Rewrites.SlotNotYetRewired | oneflow/core/job_rewriter/quantization_aware_training.cpp:281 | the slot of a float edge not yet rewritten reads the edge's lbn, both in the consumer's own conf and in its staged copy |
| Rewrites.RewireGroup | oneflow/core/job_rewriter/quantization_aware_training.cpp:263-282 | fails only on a group edge whose blob is not consumed by exactly one slot; otherwise the staged map covers the group too, and cast_is_consumed holds exactly when the group is not empty |
| Rewrites.GroupRound | oneflow/core/job_rewriter/quantization_aware_training.cpp:247-252 | a group is non-empty and duplicate-free, and shares a source that produces its lbn; a non-float group adds nothing, and a float group adds exactly its own edges, all new |
| Rewrites.SkippedGroup | oneflow/core/job_rewriter/quantization_aware_training.cpp:251-252 | skipping a group whose blob is not float leaves the rewritten float edges as they are |
| Rewrites.MarkerStep | oneflow/core/job_rewriter/quantization_aware_training.cpp:284-288 | adding a float group's marker gives every edge of the group its marker, and no marker for an lbn outside the rewritten edges |
| Rewrites.RewriteGroup | oneflow/core/job_rewriter/quantization_aware_training.cpp:247-289 | one round of the group loop rewrites exactly the float edges of its lbn; it fails only on a float edge whose blob is not consumed by exactly one slot |
| Rewrites.RewriteFloatGroup | oneflow/core/job_rewriter/quantization_aware_training.cpp:254-288 | a float group gets its consumers rewired and its marker added, so exactly the group's edges join the rewritten ones; it fails only on a float edge without a sole consumer slot |
| Rewrites.RewriteConsumers | oneflow/core/job_rewriter/quantization_aware_training.cpp:246-289 | in every visiting order: fails exactly when a float selected edge lacks a sole consumer slot; otherwise the markers are exactly one per float lbn, and the staged map holds exactly the rewired conf of each consumer of a float edge |
| JobBuilders.ByNameMembers | oneflow/core/job_rewriter/quantization_aware_training.cpp:291-294 | the confs by name are keyed by exactly their names; with distinct names each name maps to its own conf |
| JobBuilders.JobBuilder.AddOps | oneflow/core/job_rewriter/quantization_aware_training.cpp:285-286 | appends the confs, in order and with the given placement, and changes nothing else |
| JobBuilders.JobBuilder.MutOpsOnlyOnce | oneflow/core/job_rewriter/quantization_aware_training.cpp:293-294 | succeeds exactly when the names are distinct and none was replaced before; then every conf replaces its op; on failure only a prefix is recorded; the added ops are untouched |
| QuantAwareTraining.MarkerMapUnique | oneflow/core/job_rewriter/quantization_aware_training.cpp:247-289 | the markers are determined by the rewritten edges, whatever order the groups are visited in |
| QuantAwareTraining.StagedMapUnique | oneflow/core/job_rewriter/quantization_aware_training.cpp:246-282 | the staged configurations are determined by the rewritten edges, whatever order the groups and their edges are visited in |
| QuantAwareTraining.StagedNamesMatch | oneflow/core/job_rewriter/quantization_aware_training.cpp:274-279 | the staged map is keyed by exactly the consumers' names, and each staged conf carries the name it is filed under |
| QuantAwareTraining.MarkersNamedByLbn | oneflow/core/job_rewriter/quantization_aware_training.cpp:254-288 | each marker is MarkerConf of its lbn, placed like the lbn's producer; different lbns never share a marker op |
| QuantAwareTraining.ConsumerSeesMarker | oneflow/core/job_rewriter/quantization_aware_training.cpp:279-281 | the consumer of each rewritten edge reads the edge's slot from the marker output of the edge's lbn |
| QuantAwareTraining.StagedOnlyRewires | oneflow/core/job_rewriter/quantization_aware_training.cpp:276-281 | a staged conf is its consumer's own conf with only input lbns changed: name, type, outputs and slots are kept; a slot reads its old lbn or that lbn's marker output; a slot fed by no rewritten edge is unchanged |
| QuantAwareTraining.FusedEdgeNotSelected | oneflow/core/job_rewriter/quantization_aware_training.cpp:199-230 | the edge inside a fused conv2d + relu pair is never selected |
| QuantAwareTraining.AddMarkers | oneflow/core/job_rewriter/quantization_aware_training.cpp:284-288 | appends each marker exactly once after the ops added before, and replaces nothing |
| QuantAwareTraining.CollectStaged | oneflow/core/job_rewriter/quantization_aware_training.cpp:291-292 | lists each staged conf once; with names matching keys, the names are distinct and rebuild the staged map |
| QuantAwareTraining.NamesAreKeys | oneflow/core/job_rewriter/quantization_aware_training.cpp:294 | the listed confs avoid the ops already replaced exactly when the staged names do |
| QuantAwareTraining.PlanRewrite | oneflow/core/job_rewriter/quantization_aware_training.cpp:233-289 | the grouping and the group loop fail exactly when a selected edge carries other than one blob or a float one lacks a sole consumer slot; otherwise they yield the marker map and the staged map of the float selected edges |
| QuantAwareTraining.Commit | oneflow/core/job_rewriter/quantization_aware_training.cpp:284-294 | adds each marker once after the ops added before; succeeds exactly when no staged consumer was replaced before, and then replaces exactly the staged consumers |
| QuantAwareTraining.InsertFakeQuantOp | oneflow/core/job_rewriter/quantization_aware_training.cpp:209-295 | succeeds exactly when no edge is both an entry and an exit edge, no two Int8 nodes share an inference output node with an out-edge, every selected edge carries one blob, every float one is consumed by one slot, and no consumer was replaced before; then it adds exactly the unique marker map and replaces exactly with the unique staged map |
| QuantAwareTraining.BoundaryEdgeReadsMarker | oneflow/core/job_rewriter/quantization_aware_training.cpp:217-288 | after a successful pass, every float edge that enters or leaves int8 territory has its marker among the added ops, and its consumer's slot reads the marker's output |
| QuantAwareTraining.Apply | oneflow/core/job_rewriter/quantization_aware_training.cpp:164-197 | InsertFakeQuantOp with the shipped lists and the chain-reached white set, with the same success condition and the same committed result |

## Left out

- VerifyQATList (lines 104-109): it looks each list entry up in the user-op registry, which is outside the pass and not modelled.
- The check that the job's default data type is float (line 165): it reads global job state, so `Apply` assumes it holds.
- Logging: the `VLOG` lines and `Container2Str` only produce log text.
- `IsEnabled`, `REGISTER_FUNCTION_PASS` and the `WITH_CUDA` guard are build and registration wiring.
- Traversal.DfsTopoGraphTraversal: the graph's own DFS topological order, which starts at its source nodes, is not modelled. The walk takes the visiting order as a parameter, and `Apply` requires that order to be topological.
- The framework's graph invariants are assumed as `OpGraphs.Valid`, not derived. They are:
  - every edge joins two nodes;
  - there is one edge per producer and consumer pair;
  - an edge carries only blobs its source produces;
  - op names are unique;
  - each lbn has one producer;
  - each consumer slot recorded on an edge is bound to that lbn.
- JobBuilders.JobBuilder: the real job builder's internals are not modelled, such as checking op names on `AddOps` and looking the replaced op up in the job. The builder is modelled as the record of ops added and configurations replaced.
- JobBuilders.JobBuilder.MutOpsOnlyOnce: on failure the contract states only that some prefix of the confs was recorded.
- QuantAwareTraining.InsertFakeQuantOp: the source calls `AddOps` inside the group loop, while the model adds all markers after the loop.
  - On success the added ops are the same set; only their order, which follows the hash map, differs.
  - When a later group aborts the pass, the model has added no marker at all.
- QuantAwareTraining.InsertFakeQuantOp: on failure the contract names the set of possible error kinds, not which kind a given graph produces. Each kind belongs to one stage, and `SelectEdges`, `GroupByLbn` and `RewriteConsumers` each state when their own stage fails.
- Rewrites.RewriteConsumers: it does not say which of its two errors occurs. One is an edge whose blob has no consumer slot; the other is a blob consumed by more than one slot.
- Rewrites.ReplaceInputLbn: it models `ReplaceInputLbnInOpCustomizedConf` as an update of the configuration's input map. The protobuf reflection it performs is not part of this model.
- Running the pass twice on its own output is not modelled. That needs the graph rebuilt from the builder's changes, and that rebuild is framework code.
- `fully_connected_op.cpp` and the Python tests under `oneflow/python/test/xrt` are context only and are not part of this model.
