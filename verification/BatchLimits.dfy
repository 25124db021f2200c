/** Where the batch protocol does less than one might expect, shown by runs. */
module BatchLimits {
  import opened Basics
  import opened Heap
  import opened NodeRound
  import opened BatchMachine
  import opened BatchInvariant
  import opened BatchLog
  import opened BatchProofs
  import opened BatchTheorems
  import opened BatchCoverage

  lemma Extend(c: Config, s: State, l: Label) returns (s': State)
    requires Reached(c, s) && BatchMachine.WF(c, s) && Enabled(c, s, l)
    ensures s' == Apply(c, s, l) && BatchMachine.WF(c, s') && Reached(c, s')
  {
    var schedule :| Run(c, schedule) == Some(s);
    s' := Apply(c, s, l);
    assert (schedule + [l])[..|schedule|] == schedule;
    assert Run(c, schedule + [l]) == Some(s');
  }

  lemma StartReached(c: Config) returns (s: State)
    ensures s == Init(c) && Reached(c, s)
  {
    s := Init(c);
    assert Run(c, []) == Some(s);
  }

  /** The writer performs the first insert. */
  lemma InsertFirst(c: Config, s: State, d: SensorData) returns (s': State)
    requires Reached(c, s) && c.readers > 0 && s == Init(c)
    ensures s' == s.(heap := [Node(d, 0, None, true)], head := Some(0), tail := Some(0), writeIndex := 1)
    ensures Reached(c, s')
  {
    hide NodeRound.WF, Reached, Run, Read, OpenBarrier;
    var s1 := Extend(c, s, Produce(d));
    var s2 := Extend(c, s1, WriterStep);
    var s3 := Extend(c, s2, WriterStep);
    s' := Extend(c, s3, WriterStep);
  }

  /** The writer performs a whole insert behind a live tail. */
  lemma Insert(c: Config, s: State, d: SensorData) returns (s': State)
    requires Reached(c, s) && BatchMachine.WF(c, s) && s.round.fault == Fine
    requires s.writer == Idle && (s.started || |s.heap| < c.readers)
    requires |s.heap| > 0 && s.tail == Some(|s.heap| - 1) && s.heap[|s.heap| - 1].live
    ensures Reached(c, s') && BatchMachine.WF(c, s')
    ensures var n := |s.heap|;
      var wrap := s.writeIndex == c.readers;
      s' == s.(heap := s.heap[n - 1 := s.heap[n - 1].(next := Some(n))] + [Node(d, if wrap then 0 else s.writeIndex, None, true)],
               tail := Some(n),
               writeIndex := if wrap then 1 else s.writeIndex + 1,
               sem := if wrap then s.sem + 1 else s.sem,
               posts := if wrap then s.posts + 1 else s.posts)
  {
    hide NodeRound.WF, Reached, Run, Read, OpenBarrier;
    var s1 := Extend(c, s, Produce(d));
    var s2 := Extend(c, s1, WriterStep);
    var s3 := Extend(c, s2, WriterStep);
    var s4 := Extend(c, s3, WriterStep);
    s' := Extend(c, s4, WriterStep);
  }

  // ---------------------------------------------------------------- one reader's whole turn

  /** Reader `t` is about to enter the round, nobody else is in it, and the first node is `node`. */
  ghost predicate AtTurn(c: Config, s: State, t: nat, node: nat) {
    && Reached(c, s) && BatchMachine.WF(c, s)
    && t < c.readers && s.pcs[t] == ToRound && Quiet(s.round)
    && s.head == Some(node) && node < |s.heap| && s.heap[node].live && s.heap[node].tag < c.readers
  }

  /** The log has grown by calls about `node` only. */
  ghost predicate Extends(log: seq<Invocation>, log': seq<Invocation>, node: nat) {
    log <= log' && forall i :: |log| <= i < |log'| ==> log'[i].node == node
  }

  /** The first `cb` of the callbacks have run. */
  function FirstRun(callbacks: nat, cb: nat): (flags: seq<bool>)
    ensures |flags| == callbacks && forall i :: 0 <= i < callbacks ==> (flags[i] <==> i < cb)
  {
    seq(callbacks, i => i < cb)
  }

  /** In a turn that began with `r0`, reader `t` holds `node` under `lock` and has run the first `cb` callbacks. */
  ghost predicate OnTurn(c: Config, r0: Round, r: Round, t: nat, node: nat, lock: nat, cb: nat)
    requires t < |r0.stages| && t < |r0.chosen| && lock < |r0.nodeLock| && cb <= c.callbacks
  {
    && NodeRound.WF(r, c.readers, c.callbacks) && r.fault == Fine
    && r.stages == r0.stages[t := Executing(node, cb, FirstRun(c.callbacks, cb), c.callbacks - cb, Sweep)]
    && r.nodeLock == r0.nodeLock[lock := Some(t)]
    && r.cbLock == r0.cbLock
    && r.chosen == r0.chosen[t := Some(node)]
    && Extends(r0.log, r.log, node)
  }

  ghost predicate InTurn(c: Config, s0: State, s: State, t: nat, node: nat, cb: nat)
    requires AtTurn(c, s0, t, node) && cb <= c.callbacks
  {
    && Reached(c, s) && BatchMachine.WF(c, s)
    && s == s0.(pcs := s0.pcs[t := InRound], round := s.round)
    && OnTurn(c, s0.round, s.round, t, node, s0.heap[node].tag, cb)
  }

  /** It enters and locks the first node. */
  lemma TakeFirst(c: Config, s: State, t: nat, node: nat) returns (s': State)
    requires AtTurn(c, s, t, node)
    ensures InTurn(c, s, s', t, node, 0)
  {
    hide Reached, Run, Write, OpenBarrier, Reclaim;
    var s1 := Extend(c, s, ReaderStep(t));
    s' := Extend(c, s1, ReaderStep(t));
    assert seq(c.callbacks, _ => false) == FirstRun(c.callbacks, 0);
    assert s'.round.stages == s.round.stages[t := Executing(node, 0, FirstRun(c.callbacks, 0), c.callbacks, Sweep)];
    assert s'.round.chosen == s.round.chosen[t := Some(node)];
  }

  /** A step inside the callback sweep. */
  lemma SweepStep(c: Config, s: State, t: nat) returns (s': State)
    requires Reached(c, s) && BatchMachine.WF(c, s) && s.round.fault == Fine
    requires t < c.readers && s.pcs[t].InRound? && s.round.stages[t].Executing?
    ensures Reached(c, s') && BatchMachine.WF(c, s')
    ensures s' == s.(round := Execute(s.heap, c.readers, c.callbacks, s.round, s.batches, t))
  {
    hide Reached, Run, Write, OpenBarrier, Reclaim, Execute;
    s' := Extend(c, s, ReaderStep(t));
  }

  /** The next callback in four steps: lock it, copy the datum, run it, give its lock back. */
  lemma LockAndLoad(c: Config, heap: seq<Node>, r0: Round, r: Round, round: nat, t: nat, node: nat, lock: nat, cb: nat)
    returns (r1: Round, r2: Round)
    requires t < |r0.stages| && t < |r0.chosen| && lock < |r0.nodeLock| && cb < c.callbacks && OnTurn(c, r0, r, t, node, lock, cb)
    requires r0.cbLock[cb] == None && Check(heap, Some(node)) == Fine
    ensures r.stages[t].Executing? && r1 == Execute(heap, c.readers, c.callbacks, r, round, t)
    ensures r1.stages[t].Executing? && r2 == Execute(heap, c.readers, c.callbacks, r1, round, t)
    ensures r1.fault == Fine && r2 == r.(
      stages := r0.stages[t := Executing(node, cb, FirstRun(c.callbacks, cb), c.callbacks - cb, Call)],
      cbLock := r0.cbLock[cb := Some(t)], args := r2.args)
  {
    hide Extends;
    r1 := Execute(heap, c.readers, c.callbacks, r, round, t);
    assert r1.stages == r0.stages[t := Executing(node, cb, FirstRun(c.callbacks, cb), c.callbacks - cb, Load)];
    r2 := Execute(heap, c.readers, c.callbacks, r1, round, t);
    assert r2.stages == r0.stages[t := Executing(node, cb, FirstRun(c.callbacks, cb), c.callbacks - cb, Call)];
  }

  lemma CallAndRelease(c: Config, heap: seq<Node>, r0: Round, r: Round, round: nat, t: nat, node: nat, lock: nat, cb: nat)
    returns (r1: Round, r2: Round)
    requires t < |r0.stages| && t < |r0.chosen| && lock < |r0.nodeLock| && cb < c.callbacks && |r0.cbLock| == c.callbacks
    requires NodeRound.WF(r, c.readers, c.callbacks) && r.fault == Fine && r0.cbLock[cb] == None
    requires r.stages == r0.stages[t := Executing(node, cb, FirstRun(c.callbacks, cb), c.callbacks - cb, Call)]
    requires r.cbLock == r0.cbLock[cb := Some(t)] && r.nodeLock == r0.nodeLock[lock := Some(t)]
    requires r.chosen == r0.chosen[t := Some(node)] && Extends(r0.log, r.log, node)
    ensures r1 == Execute(heap, c.readers, c.callbacks, r, round, t) && r1.fault == Fine
    ensures r1.stages[t].Executing? && r2 == Execute(heap, c.readers, c.callbacks, r1, round, t)
    ensures OnTurn(c, r0, r2, t, node, lock, cb + 1)
  {
    var flags := FirstRun(c.callbacks, cb + 1);
    assert FirstRun(c.callbacks, cb)[cb := true] == flags;
    r1 := Execute(heap, c.readers, c.callbacks, r, round, t);
    assert r1.stages == r0.stages[t := Executing(node, cb, flags, c.callbacks - (cb + 1), Release)];
    r2 := Execute(heap, c.readers, c.callbacks, r1, round, t);
    assert r2.stages == r0.stages[t := Executing(node, cb + 1, flags, c.callbacks - (cb + 1), Sweep)];
    assert r2.cbLock == r0.cbLock;
  }

  lemma RunNext(c: Config, s0: State, s: State, t: nat, node: nat, cb: nat) returns (s': State)
    requires AtTurn(c, s0, t, node) && cb < c.callbacks && InTurn(c, s0, s, t, node, cb)
    ensures InTurn(c, s0, s', t, node, cb + 1)
  {
    var lock := s0.heap[node].tag;
    var r1, r2 := LockAndLoad(c, s.heap, s0.round, s.round, s.batches, t, node, lock, cb);
    var r3, r4 := CallAndRelease(c, s.heap, s0.round, r2, s.batches, t, node, lock, cb);
    hide Reached, Execute, Quiet, Extends, OnTurn;
    var s1 := SweepStep(c, s, t);
    var s2 := SweepStep(c, s1, t);
    var s3 := SweepStep(c, s2, t);
    s' := SweepStep(c, s3, t);
  }

  /** What a turn changes. */
  ghost predicate Turned(c: Config, s: State, s': State, t: nat, node: nat)
    requires t < |s.pcs| && t < |s.round.chosen|
  {
    && Reached(c, s') && BatchMachine.WF(c, s') && Quiet(s'.round)
    && s' == s.(pcs := s.pcs[t := AtBar2], round := s'.round)
    && s'.round.chosen == s.round.chosen[t := Some(node)]
    && Extends(s.round.log, s'.round.log, node)
  }

  /** It finds every callback run, gives the node lock back and goes to the barrier. */
  lemma Leave(c: Config, s0: State, s: State, t: nat, node: nat) returns (s': State)
    requires AtTurn(c, s0, t, node) && InTurn(c, s0, s, t, node, c.callbacks)
    ensures Turned(c, s0, s', t, node)
  {
    hide Reached, Run, Write, OpenBarrier, Reclaim, Extends;
    var s1 := Extend(c, s, ReaderStep(t));
    assert s1.round.stages == s0.round.stages[t := Executed(node)];
    var s2 := Extend(c, s1, ReaderStep(t));
    assert s2.round.stages == s0.round.stages && s2.round.nodeLock == s0.round.nodeLock;
    s' := Extend(c, s2, ReaderStep(t));
    assert s'.pcs == s0.pcs[t := AtBar2];
  }

  /** One reader's whole turn on the first node, up to the barrier. */
  lemma Turn(c: Config, s: State, t: nat, node: nat) returns (s': State)
    requires AtTurn(c, s, t, node)
    ensures Turned(c, s, s', t, node)
  {
    hide AtTurn, InTurn, Turned;
    var s1 := TakeFirst(c, s, t, node);
    var cb: nat := 0;
    while cb < c.callbacks
      invariant cb <= c.callbacks && InTurn(c, s, s1, t, node, cb)
    {
      s1 := RunNext(c, s, s1, t, node, cb);
      cb := cb + 1;
    }
    s' := Leave(c, s, s1, t, node);
  }

  // ---------------------------------------------------------------- one reader

  const ONE: Config := Config(1, 1)
  const BLANK: SensorData := SensorData(0, 0.0, 0)
  const QUIET1: Round := Round([Outside], [None], [None], [BLANK], [None], [], Fine)

  /** With one reader: the writer has posted for the full first batch but not linked the node after it. */
  lemma OnePosted() returns (s: State)
    ensures Reached(ONE, s) && BatchMachine.WF(ONE, s)
    ensures s == State([Node(BLANK, 0, None, true), Node(BLANK, 0, None, true)], Some(0), Some(0), 0, 1, true, Tagging,
                       [SemWait], QUIET1, 1, 0, 0)
  {
    var s0 := StartReached(ONE);
    assert s0.pcs == [AtStart] && s0.round == QUIET1;
    var s1 := InsertFirst(ONE, s0, BLANK);
    var s2 := Extend(ONE, s1, WriterReady);
    var s3 := Extend(ONE, s2, Start);
    assert s3.pcs == [SemWait];
    var s4 := Extend(ONE, s3, Produce(BLANK));
    s := Extend(ONE, s4, WriterStep);
  }

  /** The reader takes the token. */
  lemma OneBegun() returns (s: State)
    ensures Reached(ONE, s) && BatchMachine.WF(ONE, s)
    ensures s == State([Node(BLANK, 0, None, true), Node(BLANK, 0, None, true)], Some(0), Some(0), 0, 0, true, Tagging,
                       [ToRound], QUIET1, 1, 1, 0)
  {
    var s0 := OnePosted();
    hide Reached, Run, Write, Process;
    var s1 := Extend(ONE, s0, ReaderStep(0));
    var s2 := Extend(ONE, s1, ReaderStep(0));
    s := Extend(ONE, s2, Open(0));
    assert s.pcs == [ToRound];
  }

  /** It works on the only linked node. */
  lemma OneWorked() returns (s: State)
    ensures Reached(ONE, s) && BatchMachine.WF(ONE, s) && s.round.fault == Fine && s.pcs == [AtBar2]
    ensures s.heap == [Node(BLANK, 0, None, true), Node(BLANK, 0, None, true)] && s.head == s.tail == Some(0) && s.writer == Tagging
  {
    var s0 := OneBegun();
    hide Reached;
    s := Turn(ONE, s0, 0, 0);
  }

  /** A step of the walk that frees the batch. */
  lemma ReclaimStep(c: Config, s: State, t: nat) returns (s': State)
    requires Reached(c, s) && BatchMachine.WF(c, s) && s.round.fault == Fine && t < c.readers && Reclaiming(s.pcs[t])
    ensures Reached(c, s') && BatchMachine.WF(c, s') && s' == Reclaim(c, s, t)
  {
    hide Reached, Run, Write, OpenBarrier, Process, Reclaim;
    s' := Extend(c, s, ReaderStep(t));
  }

  /** It frees that node, which is the writer's `tail`. */
  lemma OneFreed() returns (s: State)
    ensures Reached(ONE, s) && BatchMachine.WF(ONE, s)
    ensures s.pcs == [PutHead(None)] && s.writer == Tagging && s.tail == Some(0) && s.round.fault == Fine
    ensures |s.heap| == 2 && !s.heap[0].live
  {
    var s0 := OneWorked();
    hide Reached, Run, Read, Write;
    var s1 := Extend(ONE, s0, Open(0));
    assert s1.pcs == [LoadHead];
    var s2 := ReclaimStep(ONE, s1, 0);
    var s3 := ReclaimStep(ONE, s2, 0);
    assert s3.pcs == [FreeNode(0, 0, None)];
    s := ReclaimStep(ONE, s3, 0);
  }

  /** The writer then writes the `next` field of the freed node. */
  lemma OneReaderFaults() returns (s: State)
    ensures Reached(ONE, s) && s.round.fault == UseAfterFree
  {
    var s0 := OneFreed();
    hide Reached, Run, Read;
    var s1 := Extend(ONE, s0, WriterStep);
    s := Extend(ONE, s1, WriterStep);
  }

  /** No run of the protocol with this many readers does anything undefined. */
  ghost predicate MemorySafe(readers: nat) {
    forall callbacks: nat, s :: Reached(Config(readers, callbacks), s) ==> s.round.fault == Fine
  }

  /** The protocol is memory safe exactly when there are at least two readers. */
  lemma MemorySafeIff(readers: nat)
    requires readers >= 1
    ensures MemorySafe(readers) <==> readers >= 2
  {
    if readers >= 2 {
      forall callbacks: nat, s | Reached(Config(readers, callbacks), s) ensures s.round.fault == Fine {
        NoFault(Config(readers, callbacks), s);
      }
    } else {
      var s := OneReaderFaults();
      assert Reached(Config(1, 1), s);
    }
  }

  // ---------------------------------------------------------------- nodes processed by all readers, others by none

  const DATUM: SensorData := SensorData(0, 0.0, 1)

  /** Nothing but the writer has moved: `s'` differs from `s` in the list, the write index and the posts. */
  ghost predicate Inserted(c: Config, s: State, s': State, n: nat) {
    && Reached(c, s') && BatchMachine.WF(c, s') && |s'.heap| == n
    && s'.writer == Idle && s'.started == s.started && s'.pcs == s.pcs && s'.round == s.round
    && s'.commits == s.commits && s'.batches == s.batches
  }

  lemma IdleTail(c: Config, s: State)
    requires c.readers >= 2 && Reached(c, s) && s.writer == Idle && |s.heap| > 0
    ensures s.tail == Some(|s.heap| - 1) && s.heap[|s.heap| - 1].live && s.round.fault == Fine
  {
    var ph := ReachedInv(c, s);
    TailIsLive(c, s, ph);
  }

  lemma {:induction false} InsertMany(c: Config, s: State, m: nat) returns (s': State)
    requires c.readers >= 2 && Reached(c, s) && BatchMachine.WF(c, s)
    requires s.writer == Idle && |s.heap| > 0 && (s.started || |s.heap| + m <= c.readers)
    ensures Inserted(c, s, s', |s.heap| + m)
    decreases m
  {
    if m == 0 {
      s' := s;
    } else {
      IdleTail(c, s);
      hide Reached;
      var s1 := Insert(c, s, DATUM);
      s' := InsertMany(c, s1, m - 1);
    }
  }

  /** Between rounds, with all tokens for the next round posted. */
  ghost predicate Ready(c: Config, s: State) {
    && c.readers >= 2 && Reached(c, s) && BatchMachine.WF(c, s) && Quiet(s.round) && s.round.log == []
    && s.writer == Idle && s.started && s.batches == 0 && s.commits == 0 && s.sem == c.readers
    && |s.heap| > c.readers && s.head == Some(0) && s.heap[0].live && s.heap[0].tag < c.readers
    && (forall t :: 0 <= t < c.readers ==> s.pcs[t] == SemWait)
  }

  /** The writer fills the buffer with one batch, starts the readers, and goes on until it has posted for all of them. */
  lemma ReadyReached(c: Config) returns (s: State)
    requires c.readers >= 2
    ensures Ready(c, s)
  {
    var s0 := StartReached(c);
    var s1 := InsertFirst(c, s0, DATUM);
    hide Reached, Run, Read, Write, OpenBarrier;
    var s2 := InsertMany(c, s1, c.readers - 1);
    var s3 := Extend(c, s2, WriterReady);
    var s4 := Extend(c, s3, Start);
    ProductGap(c.readers, 1, c.readers);
    s := InsertMany(c, s4, c.readers * c.readers + 1 - c.readers);
    ReadyAt(c, s);
  }

  lemma ReadyAt(c: Config, s: State)
    requires c.readers >= 2 && Reached(c, s) && |s.heap| == c.readers * c.readers + 1 && s.writer == Idle
    requires s.batches == 0 && s.commits == 0 && s.started && s.round.log == [] && |s.pcs| == c.readers
    requires forall t :: 0 <= t < c.readers ==> s.pcs[t] == SemWait
    ensures Ready(c, s)
  {
    hide Reached;
    TokensConserved(c, s);
    TallyNone(s.pcs, HoldsToken);
    Quotient(c.readers * c.readers, c.readers, 0, c.readers);
    ProductGap(c.readers, 1, c.readers);
    FirstIsThere(c, s);
  }

  lemma FirstIsThere(c: Config, s: State)
    requires c.readers >= 2 && Reached(c, s) && |s.heap| > c.readers && s.writer == Idle && s.batches == 0
    requires BatchMachine.WF(c, s) ==> s.pcs[0] == SemWait
    ensures BatchMachine.WF(c, s) && Quiet(s.round) && s.head == Some(0) && s.heap[0].live && s.heap[0].tag < c.readers
  {
    var ph := ReachedInv(c, s);
    PhaseOf(c, s, ph, 0);
    assert s.heap[0].tag == Slot(0, c.readers);
  }

  /** The first `k` readers have taken their tokens. */
  lemma {:induction false} TakeTokens(c: Config, s: State, k: nat) returns (s': State)
    requires Ready(c, s) && k <= c.readers
    ensures Reached(c, s') && BatchMachine.WF(c, s')
    ensures s' == s.(sem := c.readers - k, pcs := seq(c.readers, t => if t < k then AtBar1 else SemWait))
  {
    hide Reached;
    if k == 0 {
      s' := s;
    } else {
      var s1 := TakeTokens(c, s, k - 1);
      hide Run, Write, OpenBarrier;
      var s2 := Extend(c, s1, ReaderStep(k - 1));
      assert s2.pcs == s1.pcs[k - 1 := Token];
      s' := Extend(c, s2, ReaderStep(k - 1));
      assert s'.pcs == seq(c.readers, t => if t < k then AtBar1 else SemWait);
    }
  }

  /** The first `k` readers have had their turn, all of them on node 0. */
  ghost predicate AllOnFirst(c: Config, s: State, k: nat) {
    && Reached(c, s) && BatchMachine.WF(c, s) && Quiet(s.round) && s.batches == 0
    && s.head == Some(0) && |s.heap| > c.readers && s.heap[0].live && s.heap[0].tag < c.readers
    && (forall i :: 0 <= i < |s.round.log| ==> s.round.log[i].node == 0)
    && (forall t :: 0 <= t < c.readers ==> s.pcs[t] == if t < k then AtBar2 else if t == 0 then ToRound else PostBack)
  }

  lemma RoundBegun(c: Config, s: State) returns (s': State)
    requires Ready(c, s)
    ensures AllOnFirst(c, s', 0)
  {
    var s1 := TakeTokens(c, s, c.readers);
    hide Reached, Run, Read, Write;
    s' := Extend(c, s1, Open(0));
  }

  /** Reader `k` finds node 0 free again. */
  lemma NextTurn(c: Config, s: State, k: nat) returns (s': State)
    requires k < c.readers && AllOnFirst(c, s, k)
    ensures AllOnFirst(c, s', k + 1)
  {
    hide Reached, Run, Write, OpenBarrier, Reclaim;
    var s1 := s;
    if k > 0 { s1 := Extend(c, s, ReaderStep(k)); }
    assert AtTurn(c, s1, k, 0);
    s' := Turn(c, s1, k, 0);
  }

  /**
   For every number of readers and callbacks that is memory safe, there is a run that is about to free the first batch
   after all readers have worked on its first node: the other nodes have been processed by nobody.
   */
  lemma FirstNodeOnly(c: Config) returns (s: State)
    requires c.readers >= 2
    ensures Reached(c, s) && BatchMachine.WF(c, s) && Reclaiming(s.pcs[0]) && s.batches == 0 && |s.heap| > c.readers
    ensures forall node :: 1 <= node < c.readers ==> !Processed(s.round.log, node)
    ensures forall t: nat, cb: nat :: t < c.readers && cb < c.callbacks ==> Made(s.round.log, 0, t, cb)
    ensures forall i :: 0 <= i < |s.round.log| ==> s.round.log[i].node == 0
  {
    var s0 := ReadyReached(c);
    s := RoundBegun(c, s0);
    var k: nat := 0;
    while k < c.readers
      invariant k <= c.readers && AllOnFirst(c, s, k)
    {
      s := NextTurn(c, s, k);
      k := k + 1;
    }
    hide Reached, Run, Read, Write;
    s := Extend(c, s, Open(0));
    var m := FreedBatchOutcome(c, s, 0);
  }

  /** Every batch is processed on all its nodes before it is freed, in every run. */
  ghost predicate CoversBatches(c: Config) {
    forall s, t: nat | Reached(c, s) && t < c.readers && BatchMachine.WF(c, s) && Reclaiming(s.pcs[t]) ::
      forall node: nat :: s.batches * c.readers <= node < s.batches * c.readers + c.readers ==> Processed(s.round.log, node)
  }

  /** No configuration that is memory safe guarantees that. */
  lemma NoReaderCountCovers(c: Config)
    requires c.readers >= 1 && MemorySafe(c.readers)
    ensures !CoversBatches(c)
  {
    MemorySafeIff(c.readers);
    var s := FirstNodeOnly(c);
    assert !Processed(s.round.log, 1);
  }
}
