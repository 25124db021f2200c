/** What the readers have handed to the callbacks: the invocation log of the batch protocol. */
module BatchLog {
  import opened Basics
  import opened Heap
  import opened NodeRound
  import opened BatchMachine
  import opened BatchInvariant
  import opened BatchProofs

  /** Reader `t` ran callback `cb` in round `round`. */
  ghost predicate Made(log: seq<Invocation>, round: nat, t: nat, cb: nat) {
    exists i :: 0 <= i < |log| && log[i].round == round && log[i].reader == t && log[i].cb == cb
  }

  /** Every entry is about a node of its own round's batch and carries that node's datum. */
  ghost predicate EntriesInv(c: Config, log: seq<Invocation>, heap: seq<Node>, batches: nat) {
    forall i :: 0 <= i < |log| ==>
      var e := log[i];
      && e.round <= batches && e.reader < c.readers && e.cb < c.callbacks
      && FirstNode(e.round, c.readers) <= e.node < FirstNode(e.round, c.readers) + c.readers
      && e.node < |heap| && e.datum == heap[e.node].datum
  }

  /** No reader runs a callback twice in a round, and it works on one node per round. */
  ghost predicate OnceInv(log: seq<Invocation>) {
    forall i, j :: 0 <= i < j < |log| && log[i].round == log[j].round && log[i].reader == log[j].reader ==>
      log[i].cb != log[j].cb && log[i].node == log[j].node
  }

  ghost predicate PastInv(c: Config, log: seq<Invocation>, batches: nat) {
    forall round: nat, t: nat, cb: nat :: round < batches && t < c.readers && cb < c.callbacks ==> Made(log, round, t, cb)
  }

  /** Reader `t` has run callback `cb` on its node of the current batch. */
  predicate Done(c: Config, s: State, ph: Phase, t: nat, cb: nat)
    requires BatchMachine.WF(c, s) && t < c.readers && cb < c.callbacks
  {
    match ph
    case Processing =>
      (match s.round.stages[t]
       case Executing(_, _, flags, _, _) => flags[cb]
       case Executed(_) => true
       case Outside => s.pcs[t].ToBar2? || s.pcs[t].AtBar2?
       case _ => false)
    case Clearing(_) => true
    case _ => false
  }

  ghost predicate CurrentInv(c: Config, s: State, ph: Phase)
    requires BatchMachine.WF(c, s)
  {
    && (forall t: nat, cb: nat :: t < c.readers && cb < c.callbacks ==> (Made(s.round.log, s.batches, t, cb) <==> Done(c, s, ph, t, cb)))
    && (forall i :: 0 <= i < |s.round.log| && s.round.log[i].round == s.batches && s.round.log[i].reader < c.readers ==>
          s.round.chosen[s.round.log[i].reader] == Some(s.round.log[i].node))
  }

  ghost predicate LogInv(c: Config, s: State, ph: Phase)
    requires BatchMachine.WF(c, s)
  {
    && EntriesInv(c, s.round.log, s.heap, s.batches)
    && OnceInv(s.round.log)
    && PastInv(c, s.round.log, s.batches)
    && CurrentInv(c, s, ph)
  }

  /** A step that runs no callback and finishes no batch keeps the log facts. */
  lemma LogFrame(c: Config, s: State, s': State, ph: Phase, ph': Phase)
    requires BatchMachine.WF(c, s) && BatchMachine.WF(c, s') && LogInv(c, s, ph)
    requires s'.round.log == s.round.log && s'.batches == s.batches && |s.heap| <= |s'.heap|
    requires forall k :: 0 <= k < |s.heap| ==> s'.heap[k].datum == s.heap[k].datum
    requires forall t: nat, cb: nat :: t < c.readers && cb < c.callbacks ==> Done(c, s, ph, t, cb) == Done(c, s', ph', t, cb)
    requires forall t: nat :: t < c.readers && s'.round.chosen[t] != s.round.chosen[t] ==>
               forall cb: nat :: cb < c.callbacks ==> !Done(c, s, ph, t, cb)
    ensures LogInv(c, s', ph')
  {
    var log := s.round.log;
    forall i | 0 <= i < |log| && log[i].round == s.batches && log[i].reader < c.readers
      ensures s'.round.chosen[log[i].reader] == Some(log[i].node)
    {
      assert Made(log, s.batches, log[i].reader, log[i].cb);
    }
  }

  lemma MadeAppend(log: seq<Invocation>, e: Invocation, round: nat, t: nat, cb: nat)
    ensures Made(log + [e], round, t, cb) <==> Made(log, round, t, cb) || (e.round == round && e.reader == t && e.cb == cb)
  {
    var log' := log + [e];
    assert log'[|log|] == e;
    if Made(log, round, t, cb) {
      var i :| 0 <= i < |log| && log[i].round == round && log[i].reader == t && log[i].cb == cb;
      assert log'[i] == log[i];
    }
  }

  /** Appending an entry for a new (round, reader, callback), about the node of its reader's earlier entries. */
  lemma AppendEntry(c: Config, log: seq<Invocation>, e: Invocation, heap: seq<Node>, batches: nat)
    requires EntriesInv(c, log, heap, batches) && OnceInv(log) && PastInv(c, log, batches)
    requires EntriesInv(c, [e], heap, batches) && !Made(log, e.round, e.reader, e.cb)
    requires forall i :: 0 <= i < |log| && log[i].round == e.round && log[i].reader == e.reader ==> log[i].node == e.node
    ensures EntriesInv(c, log + [e], heap, batches) && OnceInv(log + [e]) && PastInv(c, log + [e], batches)
  {
    var log' := log + [e];
    assert [e][0] == e;
    forall round: nat, t: nat, cb: nat | round < batches && t < c.readers && cb < c.callbacks ensures Made(log', round, t, cb) {
      MadeAppend(log, e, round, t, cb);
    }
  }

  /** The step that calls a callback adds exactly one entry, for a pair that had none. */
  lemma CallKeepsLog(c: Config, s: State, t: nat)
    requires Inv(c, s, Processing) && LogInv(c, s, Processing) && t < c.readers
    requires s.pcs[t].InRound? && s.round.stages[t].Executing? && s.round.stages[t].spot == Call
    ensures LogInv(c, Process(c, s, t), Processing)
  {
    var s' := Process(c, s, t);
    var st := s.round.stages[t];
    var log := s.round.log;
    assert StageInv(s.heap, s.round, Base(c, s), c.readers, c.callbacks, t);
    var e := Invocation(s.batches, t, st.cb, st.node, s.round.args[st.cb]);
    assert !Done(c, s, Processing, t, st.cb);
    AppendEntry(c, log, e, s.heap, s.batches);
    CallKeepsCurrent(c, s, s', t, e);
  }

  lemma CallKeepsCurrent(c: Config, s: State, s': State, t: nat, e: Invocation)
    requires BatchMachine.WF(c, s) && BatchMachine.WF(c, s') && CurrentInv(c, s, Processing) && t < c.readers
    requires s.round.stages[t].Executing? && e.round == s.batches && e.reader == t && e.cb == s.round.stages[t].cb < c.callbacks
    requires s.round.chosen[t] == Some(e.node)
    requires s'.round.stages[t].Executing? && s'.round.stages[t].flags == s.round.stages[t].flags[e.cb := true]
    requires s'.round.stages == s.round.stages[t := s'.round.stages[t]]
    requires s'.round.log == s.round.log + [e] && s'.round.chosen == s.round.chosen && s'.pcs == s.pcs && s'.batches == s.batches
    ensures CurrentInv(c, s', Processing)
  {
    var log' := s'.round.log;
    forall u: nat, cb: nat | u < c.readers && cb < c.callbacks
      ensures Made(log', s.batches, u, cb) <==> Done(c, s', Processing, u, cb)
    {
      MadeAppend(s.round.log, e, s.batches, u, cb);
      assert Made(s.round.log, s.batches, u, cb) <==> Done(c, s, Processing, u, cb);
    }
  }

  lemma ScanKeepsLog(c: Config, s: State, t: nat)
    requires BatchMachine.WF(c, s) && LogInv(c, s, Processing) && s.round.fault == Fine && t < c.readers && s.pcs[t].InRound?
    requires s.round.stages[t].Scanning? || s.round.stages[t].Advancing?
    ensures LogInv(c, Process(c, s, t), Processing)
  {
    hide LogInv;
    LogFrame(c, s, Process(c, s, t), Processing, Processing);
  }

  lemma SweepKeepsLog(c: Config, s: State, t: nat)
    requires BatchMachine.WF(c, s) && LogInv(c, s, Processing) && s.round.fault == Fine && t < c.readers && s.pcs[t].InRound?
    requires s.round.stages[t].Executing? && s.round.stages[t].spot != Call
    requires s.round.stages[t].left == Unset(s.round.stages[t].flags)
    ensures LogInv(c, Process(c, s, t), Processing)
  {
    SweepShape(s.heap, c.readers, c.callbacks, s.round, s.batches, t);
    hide LogInv, Execute, NodeRound.WF;
    LogFrame(c, s, Process(c, s, t), Processing, Processing);
  }

  /** A step of the sweep that calls nothing leaves the flags as they are, or finds all of them set. */
  lemma SweepShape(heap: seq<Node>, readers: nat, callbacks: nat, r: Round, round: nat, t: nat)
    requires NodeRound.WF(r, readers, callbacks) && t < readers && r.stages[t].Executing? && r.stages[t].spot != Call
    requires r.stages[t].left == Unset(r.stages[t].flags)
    ensures
      var r', flags := Execute(heap, readers, callbacks, r, round, t), r.stages[t].flags;
      && r'.log == r.log && r'.chosen == r.chosen && r'.stages == r.stages[t := r'.stages[t]]
      && (if r'.stages[t].Executing? then r'.stages[t].flags == flags
          else r'.stages[t].Executed? && forall cb :: 0 <= cb < callbacks ==> flags[cb])
  {
    if r.stages[t].left == 0 {
      UnsetZero(r.stages[t].flags);
    }
  }

  lemma UnlockKeepsLog(c: Config, s: State, s': State, t: nat)
    requires BatchMachine.WF(c, s) && BatchMachine.WF(c, s') && LogInv(c, s, Processing) && t < c.readers
    requires s.round.stages[t].Executed? && s' == s.(round := s'.round, pcs := s.pcs[t := ToBar2])
    requires s'.round == s.round.(nodeLock := s'.round.nodeLock, stages := s.round.stages[t := Outside])
    ensures LogInv(c, s', Processing)
  {
    hide LogInv;
    LogFrame(c, s, s', Processing, Processing);
  }

  /** The other steps of a reader inside the round leave the log alone and finish no callback. */
  lemma ProcessKeepsLog(c: Config, s: State, t: nat)
    requires Inv(c, s, Processing) && LogInv(c, s, Processing) && Enabled(c, s, ReaderStep(t)) && s.pcs[t].InRound?
    ensures LogInv(c, Process(c, s, t), Processing)
  {
    var st := s.round.stages[t];
    assert ReaderInv(c, s, t) && StageInv(s.heap, s.round, Base(c, s), c.readers, c.callbacks, t);
    hide LogInv, ListInv;
    if st.Executing? {
      if st.spot == Call {
        CallKeepsLog(c, s, t);
      } else {
        SweepKeepsLog(c, s, t);
      }
    } else if st.Executed? {
      UnlockKeepsLog(c, s, Process(c, s, t), t);
    } else {
      ScanKeepsLog(c, s, t);
    }
  }

  /** The batch is complete: every reader has run every callback in its round. */
  lemma PutHeadKeepsLog(c: Config, s: State, s': State, t: nat)
    requires BatchMachine.WF(c, s) && BatchMachine.WF(c, s') && LogInv(c, s, Clearing(t))
    requires s'.heap == s.heap && s'.round == s.round && s'.batches == s.batches + 1
    ensures LogInv(c, s', Cleared)
  {
    var log := s.round.log;
    forall u: nat, cb: nat | u < c.readers && cb < c.callbacks
      ensures Made(log, s.batches, u, cb) && !Made(log, s.batches + 1, u, cb)
    {
      assert Done(c, s, Clearing(t), u, cb);
    }
  }

  lemma ReadKeepsLog(c: Config, s: State, ph: Phase, t: nat)
    requires Inv(c, s, ph) && LogInv(c, s, ph) && Enabled(c, s, ReaderStep(t))
    ensures LogInv(c, Read(c, s, t), Next(s, ReaderStep(t), ph))
  {
    PhaseOf(c, s, ph, t);
    hide Inv, LogInv, Done;
    var s' := Read(c, s, t);
    if s.pcs[t].InRound? {
      ProcessKeepsLog(c, s, t);
    } else if s.pcs[t].PutHead? {
      PutHeadKeepsLog(c, s, s', t);
    } else {
      hide Read;
      SilentStep(c, s, ph, t);
      LogFrame(c, s, s', ph, ph);
    }
  }

  /** A step outside the round and before the write of `head` runs no callback. */
  lemma SilentStep(c: Config, s: State, ph: Phase, t: nat)
    requires Inv(c, s, ph) && Enabled(c, s, ReaderStep(t)) && !s.pcs[t].InRound? && !s.pcs[t].PutHead?
    ensures var s' := Read(c, s, t);
      && s'.round.log == s.round.log && s'.batches == s.batches && |s.heap| == |s'.heap|
      && Next(s, ReaderStep(t), ph) == ph
      && (forall k :: 0 <= k < |s.heap| ==> s'.heap[k].datum == s.heap[k].datum)
      && (forall u: nat, cb: nat :: u < c.readers && cb < c.callbacks ==> Done(c, s, ph, u, cb) == Done(c, s', ph, u, cb))
      && (forall u: nat :: u < c.readers && s'.round.chosen[u] != s.round.chosen[u] ==>
            forall cb: nat :: cb < c.callbacks ==> !Done(c, s, ph, u, cb))
  {
    PhaseOf(c, s, ph, t);
    if ph.Processing? { assert ReaderInv(c, s, t); }
    hide Inv;
  }

  lemma OpenKeepsLog(c: Config, s: State, ph: Phase, serial: nat)
    requires Inv(c, s, ph) && LogInv(c, s, ph) && Enabled(c, s, Open(serial))
    ensures LogInv(c, OpenBarrier(c, s, serial), Next(s, Open(serial), ph))
  {
    SameWaitPoint(c, s, ph);
    var s' := OpenBarrier(c, s, serial);
    if ph.Processing? {
      forall t | 0 <= t < c.readers ensures s.round.stages[t] == Outside {
        assert ReaderInv(c, s, t);
      }
    }
    hide ListInv, LogInv, NodeRound.WF;
    LogFrame(c, s, s', ph, Next(s, Open(serial), ph));
  }

  lemma WriteKeepsLog(c: Config, s: State, s': State, ph: Phase)
    requires BatchMachine.WF(c, s) && BatchMachine.WF(c, s') && LogInv(c, s, ph)
    requires s'.round == s.round && s'.pcs == s.pcs && s'.batches == s.batches
    requires |s.heap| <= |s'.heap| && forall k :: 0 <= k < |s.heap| ==> s'.heap[k].datum == s.heap[k].datum
    ensures LogInv(c, s', ph)
  {
    hide LogInv;
    LogFrame(c, s, s', ph, ph);
  }

  lemma WriterStepKeepsLog(c: Config, s: State, ph: Phase)
    requires Inv(c, s, ph) && LogInv(c, s, ph) && Inserting(s.writer)
    ensures LogInv(c, Write(c, s), ph)
  {
    hide ListInv, PhaseInv, LogInv, NodeRound.WF;
    var s' := Write(c, s);
    if s.writer.Stepping? || (s.writer.Linking? && s.tail.Some?) {
      TailIsLive(c, s, ph);
    }
    WriteKeepsLog(c, s, s', ph);
  }

  lemma StartKeepsLog(c: Config, s: State, ph: Phase)
    requires Inv(c, s, ph) && LogInv(c, s, ph) && Enabled(c, s, Start)
    ensures LogInv(c, Apply(c, s, Start), ph)
  {
    StartKeeps(c, s, ph);
    hide Inv, LogInv;
    LogFrame(c, s, Apply(c, s, Start), ph, ph);
  }

  lemma ApplyKeepsLog(c: Config, s: State, ph: Phase, l: Label)
    requires Inv(c, s, ph) && LogInv(c, s, ph) && Enabled(c, s, l)
    ensures LogInv(c, Apply(c, s, l), Next(s, l, ph))
  {
    hide ListInv, PhaseInv, LogInv, NodeRound.WF, Read, Write, OpenBarrier;
    match l {
      case ReaderStep(t) => ReadKeepsLog(c, s, ph, t);
      case Open(serial) => OpenKeepsLog(c, s, ph, serial);
      case Start => StartKeepsLog(c, s, ph);
      case WriterStep => WriterStepKeepsLog(c, s, ph);
      case _ => WriteKeepsLog(c, s, Apply(c, s, l), ph);
    }
  }

  lemma InitLog(c: Config)
    requires c.readers >= 2
    ensures LogInv(c, Init(c), Gathering)
  {
  }
}
