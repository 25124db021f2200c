/** What holds in every run of the hand-off protocol. */
module HandoffTheorems {
  import opened Basics
  import opened Heap
  import opened HandoffMachine
  import opened HandoffData
  import opened HandoffInvariant
  import opened HandoffProofs

  ghost predicate Reached(c: Config, s: State) {
    exists schedule :: Run(c, schedule) == Some(s)
  }

  lemma {:induction false} RunKeeps(c: Config, schedule: seq<Label>) returns (ph: Phase)
    requires c.readers > 0 && c.sticky && Run(c, schedule).Some?
    ensures Inv(c, Run(c, schedule).value, ph)
  {
    if schedule == [] {
      InitInv(c);
      ph := Sharing;
    } else {
      var before, l := schedule[..|schedule| - 1], schedule[|schedule| - 1];
      var ph0 := RunKeeps(c, before);
      var s := Run(c, before).value;
      hide Inv;
      ApplyKeeps(c, s, ph0, l);
      ph := Next(c, s, l, ph0);
    }
  }

  lemma ReachedInv(c: Config, s: State) returns (ph: Phase)
    requires c.readers > 0 && c.sticky && Reached(c, s)
    ensures Inv(c, s, ph)
  {
    var schedule :| Run(c, schedule) == Some(s);
    ph := RunKeeps(c, schedule);
  }

  /** All threads are done. */
  predicate Complete(c: Config, s: State) {
    |s.pcs| == c.readers && forall t :: 0 <= t < c.readers ==> s.pcs[t].Exited?
  }

  /** Entry `i` is the only one about node `k`, and it carries the datum delivered k-th. */
  ghost predicate HandledAt(log: seq<Processed>, data: seq<SensorData>, k: nat, i: nat) {
    && i < |log| && k < |data| && log[i] == Processed(k, data[k])
    && forall j :: 0 <= j < |log| && log[j].node == k ==> j == i
  }

  ghost predicate HandledOnce(log: seq<Processed>, data: seq<SensorData>, k: nat) {
    exists i: nat :: HandledAt(log, data, k, i)
  }

  /** No fault happened, and what the writer's callback delivered has reached the readers' callback exactly once. */
  ghost predicate AllHandled(s: State, data: seq<SensorData>) {
    && s.fault == Fine && s.writer.Stopped? && s.head == None
    && s.count == |s.log| == |s.heap| == |data|
    && forall k: nat :: k < |data| ==> HandledOnce(s.log, data, k)
  }

  /**
   In every complete run each datum that the writer's callback delivered has been passed to a reader's callback exactly
   once, nothing is left in the list, and the unlocked-looking global `count` equals the number of data.
   */
  lemma ExactlyOnce(c: Config, schedule: seq<Label>)
    requires c.readers > 0 && c.sticky && Run(c, schedule).Some? && Complete(c, Run(c, schedule).value)
    ensures AllHandled(Run(c, schedule).value, Produced(schedule))
  {
    var s := Run(c, schedule).value;
    var ph := RunKeeps(c, schedule);
    RunData(c, schedule);
    hide Run, Produced;
    NothingCarried(c, s, ph);
    hide Inv, Complete;
    AsManyAsNodes(s.log, |s.heap|);
    forall k: nat | k < |s.heap| ensures HandledOnce(s.log, Data(s.heap), k) {
      assert Logged(s.log, k);
      var i: nat :| i < |s.log| && s.log[i].node == k;
      assert HandledAt(s.log, Data(s.heap), k, i);
    }
  }

  lemma NothingCarried(c: Config, s: State, ph: Phase)
    requires Inv(c, s, ph) && Complete(c, s)
    ensures s.fault == Fine && s.writer.Stopped? && s.head == None && s.count == |s.log|
    ensures forall k: nat :: k < |s.heap| ==> Logged(s.log, k)
    ensures LogInv(s.heap, s.log, s.removed) && s.removed == |s.heap|
  {
    assert s.pcs[0].Exited?;
    TallyNone(s.pcs, Counting);
    forall k: nat | k < |s.heap| ensures Logged(s.log, k) {
      assert Logged(s.log, k) || CarriedBySome(s.pcs, k);
    }
  }

  lemma AsManyAsNodes(log: seq<Processed>, n: nat)
    requires forall k: nat :: k < n ==> Logged(log, k)
    requires forall i :: 0 <= i < |log| ==> log[i].node < n
    requires forall i, j :: 0 <= i < j < |log| ==> log[i].node != log[j].node
    ensures |log| == n
  {
    var nodes: seq<Option<nat>> := seq(|log|, i requires 0 <= i < |log| => Some(log[i].node));
    FewValues(nodes, 0, n);
    forall v: nat | v < n ensures Some(v) in nodes {
      assert Logged(log, v);
      var i :| 0 <= i < |log| && log[i].node == v;
      assert nodes[i] == Some(v);
    }
    if |log| < n {
      Pigeonhole(nodes, 0, n);
    }
  }

  /**
   Between inserts the heap is a queue: every node points to the next one, `head` is the first node that is not removed,
   `tail` the last one, and no node from `head` on is freed.
   */
  lemma HeapIsQueue(c: Config, s: State)
    requires c.readers > 0 && c.sticky && Reached(c, s) && !s.writer.Linking? && !s.writer.Stepping?
    ensures s.removed <= |s.heap|
    ensures forall k :: 0 <= k < |s.heap| ==>
      && s.heap[k].next == (if k + 1 < |s.heap| then Some(k + 1) else None)
      && (s.removed <= k ==> s.heap[k].live)
    ensures s.head == if s.removed == |s.heap| then None else Some(s.removed)
    ensures s.tail == if s.heap == [] then None else Some(|s.heap| - 1)
  {
    var ph := ReachedInv(c, s);
    hide CarryInv, LogInv, CountInv, LockInv, CopyInv;
  }

  /**
   Until the drain, semaphore value, tokens taken but not yet used and removed nodes add up to the posts; the writer posts
   for each datum after the first `readers + 1`.
   */
  lemma TokensConserved(c: Config, s: State)
    requires c.readers > 0 && c.sticky && Reached(c, s) && forall t :: 0 <= t < |s.pcs| ==> !Drains(s.pcs[t]) && !s.pcs[t].Exited?
    ensures s.sem + Tally(s.pcs, InFlight) + s.removed == s.posts
    ensures s.writer.Idle? || s.writer.Stopped? ==>
      s.posts == if |s.heap| <= c.readers + 1 then 0 else |s.heap| - (c.readers + 1)
  {
    var ph := ReachedInv(c, s);
    hide DataInv, LinkInv;
    var first: nat := 0;
    assert !s.pcs[first].Exited?;
  }

  /**
   A reader that removes a node in the posting phase leaves at least `readers + 1` linked nodes behind, so it never
   finds the list empty, never takes the node `tail` points to, and the check for an empty list never fires.
   */
  lemma RemovalLeavesBuffer(c: Config, s: State, t: nat)
    requires c.readers > 0 && c.sticky && Reached(c, s) && t < c.readers && |s.pcs| == c.readers
    requires InFlight(s.pcs[t]) && !Drains(s.pcs[t])
    ensures s.removed + c.readers + 1 <= Linked(s)
    ensures s.head == Some(s.removed) && s.tail.Some? && s.removed < s.tail.value && s.heap[s.removed].live
  {
    var ph := ReachedInv(c, s);
    assert ph == Sharing;
    TallyUpdate(s.pcs, t, TryRead, InFlight);
    SharingSlack(c, s);
  }

  /** No reader is past the write lock, at the barrier or draining before the writer has linked its last node. */
  lemma CleanupAfterLastInsert(c: Config, s: State, t: nat)
    requires c.readers > 0 && c.sticky && Reached(c, s) && t < c.readers && |s.pcs| == c.readers
    requires s.pcs[t].DropLock? || s.pcs[t].ToBarrier? || s.pcs[t].AtBarrier? || Drains(s.pcs[t]) || s.pcs[t].Exited?
    ensures s.writer.Stopped? && Linked(s) == |s.heap| && !s.writeLocked
  {
    var ph := ReachedInv(c, s);
  }

  // ---------------------------------------------------------------- order

  /** Earlier data not yet processed. */
  ghost predicate Overtaken(s: State, k: nat, earlier: seq<nat>) {
    && (forall i :: 0 <= i < |earlier| ==> earlier[i] < k && !Logged(s.log, earlier[i]))
    && (forall i, j :: 0 <= i < j < |earlier| ==> earlier[i] != earlier[j])
  }

  lemma OvertakenIsCarried(s: State, t: nat, k: nat)
    requires DataInv(s) && t < |s.pcs| && s.pcs[t].Invoke? && k < s.pcs[t].node && !Logged(s.log, k)
    ensures CarriedBySome(s.pcs, k)
  {
    assert Carried(s.pcs[t]).Some?;
    assert Logged(s.log, k) || CarriedBySome(s.pcs, k);
  }

  /** Different nodes are in different hands, and none of them in those of reader `t`. */
  lemma FewCarriers(pcs: seq<PC>, t: nat, earlier: seq<nat>)
    requires t < |pcs| && forall i :: 0 <= i < |earlier| ==> CarriedBySome(pcs, earlier[i]) && Carried(pcs[t]) != Some(earlier[i])
    requires forall i, j :: 0 <= i < j < |earlier| ==> earlier[i] != earlier[j]
    ensures |earlier| <= |pcs| - 1
  {
    var holders: seq<Option<nat>> := [];
    for i := 0 to |earlier|
      invariant |holders| == i
      invariant forall j :: 0 <= j < i ==> holders[j].Some? && holders[j].value < |pcs| && Carried(pcs[holders[j].value]) == Some(earlier[j])
    {
      var u: nat :| u < |pcs| && Carried(pcs[u]) == Some(earlier[i]);
      holders := holders + [Some(u)];
    }
    FewValues(holders + [Some(t)], 0, |pcs|);
  }

  /** When a datum is processed, at most `readers - 1` earlier ones are unprocessed, and none during the drain. */
  lemma BoundedOvertaking(c: Config, s: State, t: nat, earlier: seq<nat>)
    requires c.readers > 0 && c.sticky && Reached(c, s) && t < c.readers && |s.pcs| == c.readers
    requires s.pcs[t].Invoke? && Overtaken(s, s.pcs[t].node, earlier)
    ensures |earlier| <= c.readers - 1
    ensures s.pcs[t].drain ==> earlier == []
  {
    var ph := ReachedInv(c, s);
    assert s.pcs[t].drain ==> forall u :: 0 <= u < |s.pcs| && u != t ==> s.pcs[u].Exited?;
    InvData(c, s, ph);
    hide Inv, DataInv;
    forall i | 0 <= i < |earlier| ensures CarriedBySome(s.pcs, earlier[i]) {
      OvertakenIsCarried(s, t, earlier[i]);
    }
    FewCarriers(s.pcs, t, earlier);
    if s.pcs[t].drain && |earlier| > 0 {
      NotCarried(s.pcs, t, earlier[0]);
    }
  }

  lemma NotCarried(pcs: seq<PC>, t: nat, k: nat)
    requires t < |pcs| && Carried(pcs[t]) != Some(k) && forall u :: 0 <= u < |pcs| && u != t ==> pcs[u].Exited?
    ensures !CarriedBySome(pcs, k)
  {
  }

  lemma InvData(c: Config, s: State, ph: Phase)
    requires Inv(c, s, ph)
    ensures DataInv(s)
  {
  }
}
