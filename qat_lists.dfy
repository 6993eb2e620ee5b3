/** The three operator-type classification lists of the pass and the membership test. */
module QatLists {
  import opened Wrappers
  import opened OpGraphs

  /** Operator types that run in int8. */
  const Int8List: set<string> := {"matmul", "batch_matmul", "conv2d", "avg_pool_2d", "max_pool_2d"}

  /** Operator types forced back to float32: empty. */
  const ProduceFloat32List: set<string> := {}

  /** Operator types that keep the numeric domain of their input. */
  const TransparentList: set<string> := {
    "add_n", "bias_add", "multiply", "sigmoid", "tanh", "sqrt", "scalar_mul", "scalar_add",
    "broadcast_add", "broadcast_sub", "broadcast_mul", "broadcast_div", "layer_norm", "dropout",
    "softmax", "gelu", "normalization", "normalization_add_relu", "gather", "reshape", "relu",
    "transpose", "random_mask_like", "concat", "pad", "same_padding"}

  /** The three lists a QuantAwareTraining pass holds (int8_list_, fp32_list_,
      transparent_list_). */
  datatype QatLists = QatLists(int8: set<string>, fp32: set<string>, transparent: set<string>)

  /** The lists the pass is constructed with. */
  function DefaultLists(): (r: QatLists)
    ensures r.int8 == Int8List && r.fp32 == ProduceFloat32List && r.transparent == TransparentList
  {
    QatLists(Int8List, ProduceFloat32List, TransparentList)
  }

  /** IsKeyFound: membership of a key in a set or in the key set of a map. */
  predicate IsKeyFound<K(==)>(keys: set<K>, k: K) {
    k in keys
  }

  /** IsNodeInList: a node is in a list only when it is a user op whose type is listed. */
  predicate IsNodeInList(list: set<string>, node: OpNode)
    ensures IsNodeInList(list, node) ==> node.conf.userOpType.Some?
    ensures IsNodeInList(list, node) ==> UserOpTypeName(node.conf) in list
    ensures node.conf.userOpType.Some? && node.conf.userOpType.value in list ==> IsNodeInList(list, node)
  {
    if node.conf.userOpType.None? then false
    else IsKeyFound(list, node.conf.userOpType.value)
  }

  /** The lists as shipped: Int8 and Transparent are disjoint, the pattern used for
      fusion is a listed pair, and the float32 list is empty. */
  lemma ListsAsShipped()
    ensures Int8List !! TransparentList
    ensures "conv2d" in Int8List && "relu" in TransparentList
    ensures ProduceFloat32List == {}
    ensures "identity" !in Int8List + TransparentList + ProduceFloat32List
  {
  }
}
