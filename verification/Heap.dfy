/**
 The heap of list nodes.  Nodes are addressed by their allocation number, so `heap[k]` is the node of the k-th malloc,
 and a freed node stays in `heap` with `live == false`.
 */
module Heap {
  import opened Basics

  datatype Node = Node(datum: SensorData, tag: nat, next: Option<nat>, live: bool)

  /** What stops a run: DesignError is that exit of the code, StaleData a callback on data of no node. */
  datatype Fault = Fine | NullDereference | UseAfterFree | DesignError | StaleData

  function Check(heap: seq<Node>, p: Option<nat>): Fault {
    match p
    case None => NullDereference
    case Some(a) => if a < |heap| && heap[a].live then Fine else UseAfterFree
  }

  /** The data of the nodes, in order of allocation. */
  function Data(heap: seq<Node>): (r: seq<SensorData>)
    ensures |r| == |heap| && forall k :: 0 <= k < |heap| ==> r[k] == heap[k].datum
  {
    seq(|heap|, k requires 0 <= k < |heap| => heap[k].datum)
  }
}
