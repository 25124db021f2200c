/** The nodes of the hand-off protocol hold what the writer's callback delivered, in order. */
module HandoffData {
  import opened Basics
  import opened Heap
  import opened HandoffMachine

  /** What the callback delivers along a schedule. */
  function Produced(schedule: seq<Label>): (r: seq<SensorData>)
    ensures |r| <= |schedule|
  {
    if schedule == [] then []
    else
      var l := schedule[|schedule| - 1];
      Produced(schedule[..|schedule| - 1]) + if l.Produce? then [l.datum] else []
  }

  lemma {:induction false} ProducedConcat(a: seq<Label>, b: seq<Label>)
    ensures Produced(a + b) == Produced(a) + Produced(b)
  {
    if b == [] {
      assert a + b == a;
    } else {
      assert (a + b)[..|a + b| - 1] == a + b[..|b| - 1];
      ProducedConcat(a, b[..|b| - 1]);
    }
  }

  /** Each delivery has its place behind the deliveries before it, and no other label delivers anything. */
  lemma ProducedInOrder(before: seq<Label>, l: Label, behind: seq<Label>)
    ensures Produced(before + [l] + behind) ==
      Produced(before) + (match l case Produce(datum) => [datum] case _ => []) + Produced(behind)
  {
    ProducedConcat(before + [l], behind);
    ProducedConcat(before, [l]);
    assert [l][..0] == [];
  }

  /** Other labels deliver nothing. */
  lemma NothingProduced(l: Label, behind: seq<Label>)
    requires !l.Produce? && Produced(behind) == []
    ensures Produced([l] + behind) == []
  {
    ProducedInOrder([], l, behind);
    assert [] + [l] + behind == [l] + behind;
  }

  /** A step keeps the data of all nodes; a delivery adds its own. */
  lemma StepData(c: Config, s: State, l: Label)
    requires HandoffMachine.WF(c, s) && Enabled(c, s, l)
    ensures Data(Apply(c, s, l).heap) == Data(s.heap) + match l case Produce(datum) => [datum] case _ => []
  {

    if l.WriterStep? { WriteData(c, s); }
    if l.ReaderStep? { ReadData(c, s, l.t); }
  }

  lemma WriteData(c: Config, s: State)
    requires HandoffMachine.WF(c, s) && Enabled(c, s, WriterStep)
    ensures Data(Write(c, s).heap) == Data(s.heap)
  {
  }

  lemma ReadData(c: Config, s: State, t: nat)
    requires HandoffMachine.WF(c, s) && Enabled(c, s, ReaderStep(t))
    ensures Data(Read(c, s, t).heap) == Data(s.heap)
  {
    hide Attempt, Size, Handle;
    if !Removing(s.pcs[t]) { SameHeap(c, s, t); }
  }

  /** Only `sbuffer_remove` touches the nodes. */
  lemma SameHeap(c: Config, s: State, t: nat)
    requires HandoffMachine.WF(c, s) && Enabled(c, s, ReaderStep(t)) && !Removing(s.pcs[t])
    ensures Read(c, s, t).heap == s.heap
  {
  }

  /** Node `k` holds the k-th datum delivered, for ever, and there is a node for each of them. */
  lemma NodesHoldProduced(c: Config, schedule: seq<Label>)
    requires Run(c, schedule).Some?
    ensures
      var heap, data := Run(c, schedule).value.heap, Produced(schedule);
      |heap| == |data| && forall k :: 0 <= k < |heap| ==> heap[k].datum == data[k]
  {
    RunData(c, schedule);
  }

  lemma {:induction false} RunData(c: Config, schedule: seq<Label>)
    requires Run(c, schedule).Some?
    ensures Data(Run(c, schedule).value.heap) == Produced(schedule)
  {
    if schedule != [] {
      var before, l := schedule[..|schedule| - 1], schedule[|schedule| - 1];
      hide Enabled, Apply;
      RunData(c, before);
      StepData(c, Run(c, before).value, l);
    }
  }
}
