/** What holds in every run of the batch protocol, for every number of readers and every interleaving. */
module BatchTheorems {
  import opened Basics
  import opened Heap
  import opened NodeRound
  import opened BatchMachine
  import opened BatchData
  import opened BatchInvariant
  import opened BatchProofs
  import opened BatchLog

  ghost predicate Reached(c: Config, s: State) {
    exists schedule :: Run(c, schedule) == Some(s)
  }

  lemma {:induction false} RunKeeps(c: Config, schedule: seq<Label>) returns (ph: Phase)
    requires c.readers >= 2 && Run(c, schedule).Some?
    ensures Inv(c, Run(c, schedule).value, ph) && LogInv(c, Run(c, schedule).value, ph)
  {
    if schedule == [] {
      InitInv(c);
      InitLog(c);
      ph := Gathering;
    } else {
      var before, l := schedule[..|schedule| - 1], schedule[|schedule| - 1];
      var ph0 := RunKeeps(c, before);
      var s := Run(c, before).value;
      hide Inv, LogInv;
      ApplyKeeps(c, s, ph0, l);
      ApplyKeepsLog(c, s, ph0, l);
      ph := Next(s, l, ph0);
    }
  }

  lemma ReachedInv(c: Config, s: State) returns (ph: Phase)
    requires c.readers >= 2 && Reached(c, s)
    ensures Inv(c, s, ph) && LogInv(c, s, ph)
  {
    var schedule :| Run(c, schedule) == Some(s);
    ph := RunKeeps(c, schedule);
  }

  /** No step of any run dereferences NULL or a freed node, frees a node twice or takes the "Design error" exit. */
  lemma NoFault(c: Config, s: State)
    requires c.readers >= 2 && Reached(c, s)
    ensures s.round.fault == Fine
  {
    var ph := ReachedInv(c, s);
  }

  /**
   While batch `batches` is processed or freed, the writer has posted at least `batches + readers` times, so the
   first node of the next batch is linked and alive, `tail` is past it or on it, and no reader reads the `next`
   field the writer is about to write.
   */
  lemma RoundLeavesSlack(c: Config, s: State, t: nat)
    requires c.readers >= 2 && Reached(c, s) && t < c.readers && (MidRound(s.pcs[t]) || Reclaiming(s.pcs[t]))
    ensures s.posts >= s.batches + c.readers
    ensures Linked(s) >= (s.batches + c.readers) * c.readers
    ensures var next := (s.batches + 1) * c.readers;
      && next < |s.heap| && s.heap[next].live
      && s.tail.Some? && next <= s.tail.value < |s.heap| && s.heap[s.tail.value].live
    ensures s.pcs[t].FreeRead? ==> s.pcs[t].cur.Some? && s.pcs[t].cur.value < s.tail.value
    ensures s.round.stages[t].Advancing? ==> s.round.stages[t].node < s.tail.value
  {
    var ph := ReachedInv(c, s);
    PhaseOf(c, s, ph, t);
    TailPastBatch(c, s, ph);
    if ph.Processing? {
      assert ReaderInv(c, s, t) && StageInv(s.heap, s.round, Base(c, s), c.readers, c.callbacks, t);
    }
    hide ListInv, LogInv;
    assert s.pcs[t].FreeRead? ==> ReclaimInv(c, s, s.pcs[t]);
  }

  lemma TailPastBatch(c: Config, s: State, ph: Phase)
    requires Inv(c, s, ph) && s.commits == s.batches + 1
    ensures s.posts >= s.batches + c.readers && Linked(s) >= (s.batches + c.readers) * c.readers
    ensures Base(c, s) + c.readers == (s.batches + 1) * c.readers
    ensures var next := Base(c, s) + c.readers;
      && next < |s.heap| && s.heap[next].live
      && s.tail.Some? && next <= s.tail.value < |s.heap| && s.heap[s.tail.value].live
  {
    Slack(c, s);
    FirstNodeMono(s.batches + c.readers, s.posts, c.readers);
    FirstNodeIsProduct(s.batches + c.readers, c.readers);
    FirstNodeIsProduct(s.batches + 1, c.readers);
    TailIsLive(c, s, ph);
    hide PhaseInv;
  }

  /**
   Between inserts the heap is a queue: every node points to the next one, carries its place in its batch, and is alive
   unless its batch is freed or being freed; `head` is the first node that is not freed, `tail` the last one.
   */
  lemma HeapIsQueue(c: Config, s: State)
    requires c.readers >= 2 && Reached(c, s) && !Inserting(s.writer)
    ensures forall k :: 0 <= k < |s.heap| ==>
      && s.heap[k].next == (if k + 1 < |s.heap| then Some(k + 1) else None)
      && s.heap[k].tag == k % c.readers
      && ((s.batches + 1) * c.readers <= k ==> s.heap[k].live)
      && (s.commits == s.batches ==> (s.heap[k].live <==> s.batches * c.readers <= k))
    ensures s.head == if s.heap == [] then None else Some(s.batches * c.readers)
    ensures s.tail == if s.heap == [] then None else Some(|s.heap| - 1)
  {
    var ph := ReachedInv(c, s);
    FirstNodeIsProduct(s.batches, c.readers);
    FirstNodeIsProduct(s.batches + 1, c.readers);
    QueueLinks(c, s, ph);
    QueueLives(c, s, ph);
    hide Inv, LogInv;
    forall k | 0 <= k < |s.heap| ensures s.heap[k].tag == k % c.readers {
      SlotIsMod(k, c.readers);
    }
  }

  lemma QueueLinks(c: Config, s: State, ph: Phase)
    requires Inv(c, s, ph) && !Inserting(s.writer)
    ensures forall k :: 0 <= k < |s.heap| ==>
      s.heap[k].next == (if k + 1 < |s.heap| then Some(k + 1) else None) && s.heap[k].tag == Slot(k, c.readers)
    ensures s.head == if s.heap == [] then None else Some(FirstNode(s.batches, c.readers))
    ensures s.tail == if s.heap == [] then None else Some(|s.heap| - 1)
  {
    hide PhaseInv, TokenInv, LiveInv;
  }

  lemma QueueLives(c: Config, s: State, ph: Phase)
    requires Inv(c, s, ph)
    ensures forall k :: 0 <= k < |s.heap| && FirstNode(s.batches + 1, c.readers) <= k ==> s.heap[k].live
    ensures s.commits == s.batches ==> forall k :: 0 <= k < |s.heap| ==> (s.heap[k].live <==> FirstNode(s.batches, c.readers) <= k)
  {
    hide WriterInv, TokenInv, LinkInv, RoundInv, Quiet;
  }

  /** The one barrier object never mixes its three uses, and every lock is free whenever it opens. */
  lemma BarrierKeepsPhases(c: Config, s: State)
    requires c.readers >= 2 && Reached(c, s)
    ensures forall t, u :: 0 <= t < c.readers && 0 <= u < c.readers && Blocked(s.pcs[t]) && Blocked(s.pcs[u]) ==> s.pcs[t] == s.pcs[u]
    ensures forall serial :: Enabled(c, s, Open(serial)) ==> Quiet(s.round)
  {
    var ph := ReachedInv(c, s);
    forall t | 0 <= t < c.readers ensures Blocked(s.pcs[t]) ==>
      s.pcs[t] == (match ph case Gathering => AtBar1 case Processing => AtBar2 case _ => AtBar3)
    {
      PhaseOf(c, s, ph, t);
    }
    if ph.Processing? && forall t :: 0 <= t < c.readers ==> Blocked(s.pcs[t]) {
      forall t | 0 <= t < c.readers ensures s.round.stages[t] == Outside {
        assert ReaderInv(c, s, t);
      }
      RoundIsQuiet(s.heap, s.round, Base(c, s), c.readers, c.callbacks);
    }
  }

  /** `head` is written, and nodes are freed, only while every other reader waits for the end of the round. */
  lemma ReclaimIsExclusive(c: Config, s: State, t: nat)
    requires c.readers >= 2 && Reached(c, s) && t < c.readers && Reclaiming(s.pcs[t])
    ensures Quiet(s.round)
    ensures forall u :: 0 <= u < c.readers && u != t ==> s.pcs[u].ToBar3? || s.pcs[u].AtBar3?
  {
    var ph := ReachedInv(c, s);
    PhaseOf(c, s, ph, t);
  }

  /**
   A batch about to be freed has been processed by all readers, each on one node of it; the processed nodes are
   its first `m`, and all of it was processed exactly when no two readers took the same node.
   */
  lemma FreedBatchOutcome(c: Config, s: State, t: nat) returns (m: nat)
    requires c.readers >= 2 && Reached(c, s) && t < c.readers && Reclaiming(s.pcs[t])
    ensures 1 <= m <= c.readers && ProcessedPrefix(s.round.chosen, s.batches * c.readers, m)
    ensures m == c.readers <==> Distinct(s.round.chosen)
    ensures forall u: nat, cb: nat :: u < c.readers && cb < c.callbacks ==> Made(s.round.log, s.batches, u, cb)
  {
    var ph := ReachedInv(c, s);
    PhaseOf(c, s, ph, t);
    FirstNodeIsProduct(s.batches, c.readers);
    m := RoundOutcome(s.round.chosen, Base(c, s), c.readers);
    forall u: nat, cb: nat | u < c.readers && cb < c.callbacks ensures Made(s.round.log, s.batches, u, cb) {
      assert Done(c, s, ph, u, cb);
    }
  }

  /** Entry `i` is the only one of reader `t` and callback `cb` in `round`; it is about `node` and carries the datum of that number. */
  ghost predicate RanAt(log: seq<Invocation>, data: seq<SensorData>, i: nat, round: nat, t: nat, cb: nat, node: nat) {
    && i < |log| && node < |data|
    && log[i] == Invocation(round, t, cb, node, data[node])
    && forall j :: 0 <= j < |log| && log[j].round == round && log[j].reader == t && log[j].cb == cb ==> j == i
  }

  ghost predicate RanOnce(log: seq<Invocation>, data: seq<SensorData>, round: nat, t: nat, cb: nat, node: nat) {
    exists i: nat :: RanAt(log, data, i, round, t, cb, node)
  }

  /**
   Inside `r_execute` with all readers contending: the reader still holds the lock of its node, `exec_left` counts the
   callbacks it has not run, a callback about to be called finds the datum delivered for that node in its arguments and has
   not been called before in this round, and the call returns only after each callback ran exactly once, with that datum.
   */
  lemma CallbackSeesOwnNode(c: Config, schedule: seq<Label>, t: nat)
    requires c.readers >= 2 && Run(c, schedule).Some? && t < c.readers
    requires
      var st := Run(c, schedule).value.round.stages[t];
      st.Executing? || st.Executed?
    ensures
      var s := Run(c, schedule).value;
      var st := s.round.stages[t];
      && st.node < |s.heap| && s.heap[st.node].live && s.heap[st.node].tag < c.readers
      && s.round.nodeLock[s.heap[st.node].tag] == Some(t)
      && (st.Executing? ==> st.left == Unset(st.flags))
      && |Produced(schedule)| == |s.heap|
      && (st.Executing? && st.spot.Call? ==>
            s.round.cbLock[st.cb] == Some(t) && s.round.args[st.cb] == Produced(schedule)[st.node]
            && !Made(s.round.log, s.batches, t, st.cb))
      && (st.Executed? ==> forall cb: nat :: cb < c.callbacks ==> RanOnce(s.round.log, Produced(schedule), s.batches, t, cb, st.node))
  {
    var s := Run(c, schedule).value;
    var ph := RunKeeps(c, schedule);
    RunData(c, schedule);
    BusyMeansProcessing(c, s, ph, t);
    hide Inv, RoundInv, Run, Produced;
    HeldNode(s.heap, s.round, Base(c, s), c.readers, c.callbacks, t);
    var st := s.round.stages[t];
    if st.Executed? {
      forall cb: nat | cb < c.callbacks ensures RanOnce(s.round.log, Data(s.heap), s.batches, t, cb, st.node) {
        RanThisRound(c, s, ph, t, cb);
      }
    } else if st.spot.Call? {
      assert !Done(c, s, ph, t, st.cb);
    }
  }

  /** A reader that has finished its callbacks has one entry for each of them, about the node it holds. */
  lemma RanThisRound(c: Config, s: State, ph: Phase, t: nat, cb: nat)
    requires BatchMachine.WF(c, s) && LogInv(c, s, ph) && ph.Processing? && t < c.readers && cb < c.callbacks
    requires s.round.stages[t].Executed? && s.round.chosen[t] == Some(s.round.stages[t].node)
    ensures RanOnce(s.round.log, Data(s.heap), s.batches, t, cb, s.round.stages[t].node)
  {
    var log, node := s.round.log, s.round.stages[t].node;
    assert Done(c, s, ph, t, cb);
    assert Made(log, s.batches, t, cb);
    var i: nat :| i < |log| && log[i].round == s.batches && log[i].reader == t && log[i].cb == cb;
    assert RanAt(log, Data(s.heap), i, s.batches, t, cb, node);
  }

  lemma BusyMeansProcessing(c: Config, s: State, ph: Phase, t: nat)
    requires Inv(c, s, ph) && t < c.readers && s.round.stages[t] != Outside
    ensures ph.Processing? && RoundInv(s.heap, s.round, Base(c, s), c.readers, c.callbacks)
  {
    hide RoundInv;
  }

  lemma HeldNode(heap: seq<Node>, r: Round, base: nat, readers: nat, callbacks: nat, t: nat)
    requires RoundInv(heap, r, base, readers, callbacks) && t < readers
    requires r.stages[t].Executing? || r.stages[t].Executed?
    ensures
      var st := r.stages[t];
      && st.node < |heap| && heap[st.node].live && heap[st.node].tag < readers
      && r.nodeLock[heap[st.node].tag] == Some(t)
      && (st.Executing? ==> st.left == Unset(st.flags))
      && (st.Executing? && st.spot.Call? ==> r.cbLock[st.cb] == Some(t) && r.args[st.cb] == heap[st.node].datum && !st.flags[st.cb])
      && r.chosen[t] == Some(st.node)
  {
    assert StageInv(heap, r, base, readers, callbacks, t);
  }

  // ---------------------------------------------------------------- tokens and quiescence

  /** Tokens are conserved; between inserts the writer has posted once per full batch that has a successor. */
  lemma TokensConserved(c: Config, s: State)
    requires c.readers >= 2 && Reached(c, s)
    ensures s.sem + Tally(s.pcs, HoldsToken) + s.commits == s.posts
    ensures s.batches <= s.commits <= s.batches + 1
    ensures !Inserting(s.writer) ==> s.posts == if |s.heap| == 0 then 0 else (|s.heap| - 1) / c.readers
  {
    var ph := ReachedInv(c, s);
    if !Inserting(s.writer) && |s.heap| > 0 {
      FirstNodeIsProduct(s.posts, c.readers);
      hide Inv;
      Quotient(|s.heap| - 1, s.posts, s.writeIndex - 1, c.readers);
    }
  }

  /** No reader is able to move, and not all of them have reached the barrier. */
  ghost predicate Stuck(c: Config, s: State) {
    && |s.pcs| == c.readers
    && (forall t :: 0 <= t < c.readers ==> s.pcs[t].AtStart? || Blocked(s.pcs[t]) || (s.pcs[t].SemWait? && s.sem == 0))
    && (exists t :: 0 <= t < c.readers && !Blocked(s.pcs[t]))
  }

  /** That is to say, no step of a reader and no opening of the barrier is enabled. */
  lemma StuckIff(c: Config, s: State)
    requires BatchMachine.WF(c, s) && s.round.fault == Fine && c.readers > 0
    ensures Stuck(c, s) <==> forall t: nat :: t < c.readers ==> !Enabled(c, s, ReaderStep(t)) && !Enabled(c, s, Open(t))
  {
    if Stuck(c, s) {
      forall t: nat | t < c.readers ensures !Enabled(c, s, ReaderStep(t)) && !Enabled(c, s, Open(t)) {
      }
    }
    if forall t: nat :: t < c.readers ==> !Enabled(c, s, ReaderStep(t)) && !Enabled(c, s, Open(t)) {
      var first: nat := 0;
      assert !Enabled(c, s, Open(first));
      forall t: nat | t < c.readers ensures s.pcs[t].AtStart? || Blocked(s.pcs[t]) || (s.pcs[t].SemWait? && s.sem == 0) {
        assert !Enabled(c, s, ReaderStep(t));
      }
    }
  }

  /** The readers can only come to rest between rounds, short of the `readers` tokens the next round needs. */
  lemma StuckBetweenRounds(c: Config, s: State, ph: Phase)
    requires Inv(c, s, ph) && s.started && Stuck(c, s)
    ensures ph.Gathering? && s.sem == 0 && s.posts < s.batches + c.readers
  {
    var t: nat :| t < c.readers && !Blocked(s.pcs[t]);
    PhaseOf(c, s, ph, t);
    TallyAll(s.pcs, HoldsToken);
  }

  function Max(a: int, b: int): int { if a < b then b else a }

  /**
   Once the writer has stopped after `n >= 1` inserts and the readers are at rest, the number of nodes left does
   not depend on the schedule, and it is at most `readers * readers`.
   */
  lemma NodesLeftAtRest(c: Config, s: State)
    requires c.readers >= 2 && Reached(c, s) && s.writer.Stopped? && |s.heap| >= 1 && Stuck(c, s)
    ensures s.batches == Max(0, (|s.heap| - 1) / c.readers - c.readers + 1)
    ensures forall k :: 0 <= k < |s.heap| ==> (s.heap[k].live <==> s.batches * c.readers <= k)
    ensures |s.heap| - s.batches * c.readers <= c.readers * c.readers
  {
    var ph := ReachedInv(c, s);
    TokensConserved(c, s);
    StuckBetweenRounds(c, s, ph);
    FirstNodeIsProduct(s.batches, c.readers);
    FirstNodeIsProduct(s.posts, c.readers);
    assert s.posts * c.readers <= |s.heap| - 1 < s.posts * c.readers + c.readers;
    hide Inv;
    AtMostSquare(|s.heap|, s.posts, s.batches, c.readers);
  }

  lemma AtMostSquare(n: nat, posts: nat, batches: nat, r: nat)
    requires n <= posts * r + r && posts <= batches + r - 1
    ensures n - batches * r <= r * r
  {
    assert posts * r <= (batches + r - 1) * r == batches * r + r * r - r;
  }
}
