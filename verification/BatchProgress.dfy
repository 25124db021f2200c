/**
 The batch protocol always comes to rest: once the writer has stopped, the readers can be scheduled so that every
 step brings them closer to the state in which none of them can move.
 */
module BatchProgress {
  import opened Basics
  import opened Heap
  import opened NodeRound
  import opened BatchMachine
  import opened BatchData
  import opened BatchInvariant
  import opened BatchProofs
  import opened BatchLog
  import opened BatchTheorems

  // ---------------------------------------------------------------- how much is left to do

  /** Some callback from `cb` on has not run. */
  predicate Ahead(flags: seq<bool>, cb: nat) {
    exists k :: cb <= k < |flags| && !flags[k]
  }

  /** Steps one callback may take: a pass over all of them, and another one. */
  function Lap(callbacks: nat): nat { 2 * callbacks + 7 }

  /** Steps left in the callback sweep, if no lock it tries is busy. */
  function SweepWeight(callbacks: nat, flags: seq<bool>, left: int, cb: nat, spot: Spot): nat
    requires cb <= callbacks
  {
    FirstNode(if left > 0 then left else 0, Lap(callbacks)) +
    match spot
    case Sweep => (if Ahead(flags, cb) then callbacks - cb + 3 else 2 * callbacks - cb + 4)
    case Load => 2
    case Call => 1
    case Release => Lap(callbacks) - 1
  }

  /** More than any sweep takes. */
  function SweepBound(callbacks: nat): nat { FirstNode(callbacks + 1, Lap(callbacks)) + 3 }

  function StageWeight(readers: nat, callbacks: nat, st: Stage): nat
    requires WFStage(st, callbacks)
  {
    match st
    case Outside => 0
    case Executed(_) => 2
    case Executing(_, cb, flags, left, spot) => 3 + SweepWeight(callbacks, flags, left, cb, spot)
    case Scanning(idx, _) => SweepBound(callbacks) + (if idx < readers then 2 * (readers - idx) + 1 else 0)
    case Advancing(idx, _) => SweepBound(callbacks) + (if idx < readers then 2 * (readers - idx) else 0)
  }

  /** Steps left for a reader until the next opening of the barrier. */
  function Weight(readers: nat, callbacks: nat, pc: ReaderPC, st: Stage): nat
    requires WFStage(st, callbacks)
  {
    match pc
    case SemWait => 2
    case Token => 1
    case PostBack => SweepBound(callbacks) + 2 * readers + 3
    case ToRound => SweepBound(callbacks) + 2 * readers + 2
    case InRound => StageWeight(readers, callbacks, st)
    case ToBar2 => 1
    case LoadHead => 2 * readers + 3
    case FreeRead(i, _) => if i < readers then 2 * (readers - i) + 2 else 1
    case FreeNode(i, _, _) => if i < readers then 2 * (readers - i) + 1 else 1
    case PutHead(_) => 1
    case ToBar3 => 1
    case _ => 0
  }

  function Weights(c: Config, s: State): (w: seq<nat>)
    requires BatchMachine.WF(c, s)
    ensures |w| == c.readers && forall t :: 0 <= t < c.readers ==> w[t] == Weight(c.readers, c.callbacks, s.pcs[t], s.round.stages[t])
  {
    seq(c.readers, t requires 0 <= t < c.readers => Weight(c.readers, c.callbacks, s.pcs[t], s.round.stages[t]))
  }

  function Rank(ph: Phase): nat {
    match ph case Processing => 3 case Clearing(_) => 2 case Cleared => 1 case Gathering => 0
  }

  /** Rounds that can still begin. */
  function Rounds(s: State): nat { if s.commits <= s.posts then s.posts - s.commits else 0 }

  /** The step `l` makes the measure smaller: rounds to begin, then phases of the round, then steps of the phase. */
  ghost predicate Closer(c: Config, s: State, ph: Phase, l: Label)
    requires BatchMachine.WF(c, s) && Enabled(c, s, l)
  {
    var s', ph' := Apply(c, s, l), Next(s, l, ph);
    && BatchMachine.WF(c, s')
    && (Rounds(s') < Rounds(s)
        || (Rounds(s') == Rounds(s) && (Rank(ph') < Rank(ph) || (Rank(ph') == Rank(ph) && SumOf(Weights(c, s')) < SumOf(Weights(c, s))))))
  }

  // ---------------------------------------------------------------- single steps

  /** A step of one reader in which its own weight falls. */
  lemma ReaderCloser(c: Config, s: State, ph: Phase, t: nat)
    requires BatchMachine.WF(c, s) && Enabled(c, s, ReaderStep(t)) && Next(s, ReaderStep(t), ph) == ph
    requires
      var s' := Read(c, s, t);
      && s'.posts == s.posts && s'.commits == s.commits
      && s'.pcs == s.pcs[t := s'.pcs[t]] && s'.round.stages == s.round.stages[t := s'.round.stages[t]]
      && Weight(c.readers, c.callbacks, s'.pcs[t], s'.round.stages[t]) < Weight(c.readers, c.callbacks, s.pcs[t], s.round.stages[t])
    ensures Closer(c, s, ph, ReaderStep(t))
  {
    var s' := Read(c, s, t);
    hide Read, Weight, NodeRound.WF;
    var w, w' := Weights(c, s), Weights(c, s');
    assert w' == w[t := w'[t]];
    SumUpdate(w, t, w'[t]);
  }

  lemma AheadStep(flags: seq<bool>, cb: nat)
    ensures Ahead(flags, cb) <==> (cb < |flags| && !flags[cb]) || Ahead(flags, cb + 1)
  {
  }

  lemma {:induction false} AheadFromStart(flags: seq<bool>)
    ensures Ahead(flags, 0) <==> Unset(flags) > 0
  {
    if flags != [] {
      var front := flags[..|flags| - 1];
      AheadFromStart(front);
      if Ahead(front, 0) {
        var k :| 0 <= k < |front| && !front[k];
        assert !flags[k];
      }
      if Ahead(flags, 0) {
        var k :| 0 <= k < |flags| && !flags[k];
        assert k < |front| ==> !front[k];
      }
    }
  }

  /** A step of the callback sweep that finds no lock busy. */
  lemma SweepCloser(heap: seq<Node>, readers: nat, callbacks: nat, r: Round, round: nat, t: nat)
    requires NodeRound.WF(r, readers, callbacks) && t < readers && r.stages[t].Executing?
    requires r.stages[t].left == Unset(r.stages[t].flags) && Check(heap, Some(r.stages[t].node)) == Fine
    requires r.stages[t].spot == Sweep && r.stages[t].cb < callbacks ==> r.cbLock[r.stages[t].cb] == None
    requires r.stages[t].spot == Call ==> !r.stages[t].flags[r.stages[t].cb]
    ensures
      var r' := Execute(heap, readers, callbacks, r, round, t);
      && r'.stages == r.stages[t := r'.stages[t]]
      && StageWeight(readers, callbacks, r'.stages[t]) < StageWeight(readers, callbacks, r.stages[t])
  {
    var st := r.stages[t];
    AheadStep(st.flags, st.cb);
    AheadFromStart(st.flags);
    if st.spot == Call { UnsetSet(st.flags, st.cb); }
    hide Unset;
  }

  /** A step of the lock scan. */
  lemma ScanCloser(heap: seq<Node>, readers: nat, callbacks: nat, r: Round, t: nat)
    requires NodeRound.WF(r, readers, callbacks) && t < readers
    requires (r.stages[t].Scanning? || r.stages[t].Advancing?) && r.stages[t].idx < readers
    requires r.fault == Fine && Scan(heap, readers, callbacks, r, t).fault == Fine
    ensures
      var r' := Scan(heap, readers, callbacks, r, t);
      && r'.stages == r.stages[t := r'.stages[t]]
      && StageWeight(readers, callbacks, r'.stages[t]) < StageWeight(readers, callbacks, r.stages[t])
  {
  }

  // ---------------------------------------------------------------- which step to take

  /** Reader `t` holds the lock of a callback. */
  predicate Calling(s: State, t: nat) {
    t < |s.round.stages| && s.round.stages[t].Executing? && s.round.stages[t].spot != Sweep
  }

  lemma LockFree(r: Round, base: nat, readers: nat, callbacks: nat, cb: nat)
    requires NodeRound.WF(r, readers, callbacks) && LocksInv(r, base, readers, callbacks) && cb < callbacks
    requires forall u :: 0 <= u < readers && r.stages[u].Executing? ==> r.stages[u].spot == Sweep
    ensures r.cbLock[cb] == None
  {
  }

  lemma RoundCloser(heap: seq<Node>, r: Round, base: nat, readers: nat, callbacks: nat, round: nat, t: nat)
    requires RoundInv(heap, r, base, readers, callbacks) && t < readers
    requires r.stages[t].Scanning? || r.stages[t].Advancing? || r.stages[t].Executing?
    requires r.stages[t].Executing? && r.stages[t].spot == Sweep ==>
      forall u :: 0 <= u < readers && r.stages[u].Executing? ==> r.stages[u].spot == Sweep
    ensures
      var r' := Act(heap, readers, callbacks, r, round, t);
      && r'.stages == r.stages[t := r'.stages[t]]
      && StageWeight(readers, callbacks, r'.stages[t]) < StageWeight(readers, callbacks, r.stages[t])
  {
    assert StageInv(heap, r, base, readers, callbacks, t);
    var st := r.stages[t];
    if st.Executing? {
      if st.spot == Sweep && st.cb < callbacks { LockFree(r, base, readers, callbacks, st.cb); }
      SweepCloser(heap, readers, callbacks, r, round, t);
    } else {
      ActKeeps(heap, r, base, readers, callbacks, round, t);
      assert Scan(heap, readers, callbacks, r, t).fault == Fine;
      ScanCloser(heap, readers, callbacks, r, t);
    }
  }

  lemma InsideCloser(c: Config, s: State, t: nat)
    requires Inv(c, s, Processing) && Enabled(c, s, ReaderStep(t)) && s.pcs[t].InRound?
    requires Calling(s, t) || forall u: nat :: !Calling(s, u)
    ensures Closer(c, s, Processing, ReaderStep(t))
  {
    if s.round.stages[t].Executed? {
      UnlockKeeps(s.heap, s.round, Base(c, s), c.readers, c.callbacks, t);
      assert Unlock(s.heap, c.readers, c.callbacks, s.round, t).fault == Fine;
    } else {
      if !Calling(s, t) {
        forall u: nat | u < c.readers && s.round.stages[u].Executing? ensures s.round.stages[u].spot == Sweep {
          assert !Calling(s, u);
        }
      }
      RoundCloser(s.heap, s.round, Base(c, s), c.readers, c.callbacks, s.batches, t);
    }
    hide Inv, RoundInv, StageWeight, Act;
    InsideStep(c, s, t);
  }

  lemma InsideStep(c: Config, s: State, t: nat)
    requires BatchMachine.WF(c, s) && Enabled(c, s, ReaderStep(t)) && s.pcs[t].InRound?
    requires
      if s.round.stages[t].Executed? then Unlock(s.heap, c.readers, c.callbacks, s.round, t).fault == Fine
      else
        var r' := Act(s.heap, c.readers, c.callbacks, s.round, s.batches, t);
        && r'.stages == s.round.stages[t := r'.stages[t]]
        && StageWeight(c.readers, c.callbacks, r'.stages[t]) < StageWeight(c.readers, c.callbacks, s.round.stages[t])
    ensures Closer(c, s, Processing, ReaderStep(t))
  {
    if !s.round.stages[t].Executed? { hide StageWeight; }
    hide Act;
    ReaderCloser(c, s, Processing, t);
  }

  /** A reader on its way between the barrier and the round. */
  lemma BesideCloser(c: Config, s: State, t: nat)
    requires BatchMachine.WF(c, s) && Enabled(c, s, ReaderStep(t))
    requires s.pcs[t].PostBack? || s.pcs[t].ToRound? || s.pcs[t].ToBar2?
    ensures Closer(c, s, Processing, ReaderStep(t))
  {
    ReaderCloser(c, s, Processing, t);
  }

  lemma ProcessingStep(c: Config, s: State) returns (l: Label)
    requires Inv(c, s, Processing)
    ensures Enabled(c, s, l) && Closer(c, s, Processing, l)
  {
    var t: nat := 0;
    if u: nat :| u < c.readers && Calling(s, u) {
      t := u;
    } else if u: nat :| u < c.readers && !s.pcs[u].AtBar2? {
      t := u;
    }
    assert ReaderInv(c, s, t);
    l := ReaderStep(t);
    if s.pcs[t].AtBar2? {
      l := Open(t);
      OpenCloser(c, s, Processing, t);
    } else if s.pcs[t].InRound? {
      InsideCloser(c, s, t);
    } else {
      hide Inv;
      BesideCloser(c, s, t);
    }
  }

  /** An opening of the barrier. */
  lemma OpenCloser(c: Config, s: State, ph: Phase, serial: nat)
    requires Inv(c, s, ph) && serial < c.readers && forall t :: 0 <= t < c.readers ==> Blocked(s.pcs[t])
    ensures Enabled(c, s, Open(serial)) && Closer(c, s, ph, Open(serial))
  {
    SameWaitPoint(c, s, ph);
    assert s.round.fault == Fine;
    ApplyKeeps(c, s, ph, Open(serial));
    assert s.pcs[serial].AtBar1? <==> ph.Gathering?;
    hide PhaseInv, LinkInv, LiveInv, WriterInv, Weights, NodeRound.WF;
  }

  lemma ClearingStep(c: Config, s: State, z: nat) returns (l: Label)
    requires Inv(c, s, Clearing(z))
    ensures Enabled(c, s, l) && Closer(c, s, Clearing(z), l)
  {
    l := ReaderStep(z);
    assert Enabled(c, s, l);
    ApplyKeeps(c, s, Clearing(z), l);
    assert Read(c, s, z).round.fault == Fine;
    assert ReclaimInv(c, s, s.pcs[z]);
    hide Inv;
    ReclaimCloser(c, s, z);
  }

  lemma ReclaimCloser(c: Config, s: State, z: nat)
    requires BatchMachine.WF(c, s) && Enabled(c, s, ReaderStep(z)) && Reclaiming(s.pcs[z]) && ReclaimInv(c, s, s.pcs[z])
    requires Read(c, s, z).round.fault == Fine
    ensures Closer(c, s, Clearing(z), ReaderStep(z))
  {
    if s.pcs[z].PutHead? {
      hide Weights, NodeRound.WF;
    } else {
      ReclaimMoves(c, s, z);
      hide Weight, Closer, ReclaimInv, Reclaim;
      ReaderCloser(c, s, Clearing(z), z);
    }
  }

  lemma ReclaimMoves(c: Config, s: State, z: nat)
    requires BatchMachine.WF(c, s) && z < c.readers && Reclaiming(s.pcs[z]) && !s.pcs[z].PutHead? && ReclaimInv(c, s, s.pcs[z])
    requires Reclaim(c, s, z).round.fault == Fine
    ensures
      var s' := Reclaim(c, s, z);
      && s'.pcs == s.pcs[z := s'.pcs[z]] && s'.round == s.round && s'.posts == s.posts && s'.commits == s.commits
      && Weight(c.readers, c.callbacks, s'.pcs[z], s.round.stages[z]) < Weight(c.readers, c.callbacks, s.pcs[z], s.round.stages[z])
  {
  }

  lemma ClearedStep(c: Config, s: State) returns (l: Label)
    requires Inv(c, s, Cleared)
    ensures Enabled(c, s, l) && Closer(c, s, Cleared, l)
  {
    if t: nat :| t < c.readers && s.pcs[t].ToBar3? {
      l := ReaderStep(t);
      assert s.round.fault == Fine;
      hide Inv, NodeRound.WF;
      ReaderCloser(c, s, Cleared, t);
    } else {
      l := Open(0);
      OpenCloser(c, s, Cleared, 0);
    }
  }

  lemma GatheringStep(c: Config, s: State) returns (l: Label)
    requires Inv(c, s, Gathering) && s.started && !Stuck(c, s)
    ensures Enabled(c, s, l) && Closer(c, s, Gathering, l)
  {
    assert s.round.fault == Fine;
    StuckIff(c, s);
    hide Stuck;
    if t: nat :| t < c.readers && Enabled(c, s, ReaderStep(t)) {
      l := ReaderStep(t);
      assert s.pcs[t].SemWait? || s.pcs[t].Token?;
      hide Inv, NodeRound.WF;
      ReaderCloser(c, s, Gathering, t);
    } else {
      var u: nat :| u < c.readers && Enabled(c, s, Open(u));
      l := Open(u);
      OpenCloser(c, s, Gathering, u);
    }
  }

  lemma StoppedAfterStart(c: Config, s: State, ph: Phase)
    requires Inv(c, s, ph) && s.writer.Stopped?
    ensures BatchMachine.WF(c, s) && s.started
  {
    hide PhaseInv;
  }

  /** Unless the readers are stuck, some step brings them closer to it. */
  lemma CloserStep(c: Config, s: State, ph: Phase) returns (l: Label)
    requires Inv(c, s, ph) && s.writer.Stopped? && !Stuck(c, s)
    ensures Enabled(c, s, l) && Closer(c, s, ph, l)
  {
    StoppedAfterStart(c, s, ph);
    hide Inv, Closer, Stuck;
    match ph
    case Gathering => l := GatheringStep(c, s);
    case Processing => l := ProcessingStep(c, s);
    case Clearing(z) => l := ClearingStep(c, s, z);
    case Cleared => l := ClearedStep(c, s);
  }

  /** Once the writer has stopped, only readers move, and the list does not grow. */
  lemma ReadersOnly(c: Config, s: State, l: Label)
    requires BatchMachine.WF(c, s) && Enabled(c, s, l) && s.writer.Stopped? && s.started
    ensures Apply(c, s, l).writer.Stopped? && |Apply(c, s, l).heap| == |s.heap|
  {
    hide NodeRound.WF;
  }

  // ---------------------------------------------------------------- the result

  lemma RunOneMore(c: Config, schedule: seq<Label>, l: Label)
    requires Run(c, schedule).Some? && Enabled(c, Run(c, schedule).value, l)
    ensures Run(c, schedule + [l]) == Some(Apply(c, Run(c, schedule).value, l))
  {
    assert (schedule + [l])[..|schedule|] == schedule;
  }

  /** The run of this schedule exists, the writer has stopped after `n` inserts, and no reader can move. */
  ghost predicate RestsAfter(c: Config, schedule: seq<Label>, n: nat) {
    var r := Run(c, schedule);
    r.Some? && r.value.writer.Stopped? && |r.value.heap| == n && Stuck(c, r.value)
  }

  lemma RestsNow(c: Config, schedule: seq<Label>)
    requires Run(c, schedule).Some? && Run(c, schedule).value.writer.Stopped? && Stuck(c, Run(c, schedule).value)
    ensures RestsAfter(c, schedule, |Run(c, schedule).value.heap|)
  {
    hide Run, Stuck;
  }

  lemma {:induction false} RestFrom(c: Config, schedule: seq<Label>, ph: Phase, n: nat) returns (more: seq<Label>)
    requires c.readers >= 2 && Run(c, schedule).Some? && Run(c, schedule).value.writer.Stopped?
    requires Inv(c, Run(c, schedule).value, ph) && |Run(c, schedule).value.heap| == n
    ensures RestsAfter(c, schedule + more, n)
    decreases Rounds(Run(c, schedule).value), Rank(ph), SumOf(Weights(c, Run(c, schedule).value))
  {
    hide Inv, Enabled, Apply, Run, SumOf, Weights, Stuck, RestsAfter;
    var s := Run(c, schedule).value;
    if Stuck(c, s) {
      more := [];
      RestsNow(c, schedule);
      assert schedule + [] == schedule;
    } else {
      var l := CloserStep(c, s, ph);
      StoppedAfterStart(c, s, ph);
      ReadersOnly(c, s, l);
      ApplyKeeps(c, s, ph, l);
      RunOneMore(c, schedule, l);
      var rest := RestFrom(c, schedule + [l], Next(s, l, ph), n);
      more := [l] + rest;
      assert schedule + more == schedule + [l] + rest;
    }
  }

  /** From every reachable state in which the writer has stopped, some continuation brings all readers to rest. */
  lemma ComesToRest(c: Config, schedule: seq<Label>) returns (more: seq<Label>)
    requires c.readers >= 2 && Run(c, schedule).Some? && Run(c, schedule).value.writer.Stopped?
    ensures RestsAfter(c, schedule + more, |Run(c, schedule).value.heap|)
  {
    hide RestsAfter, Inv, LogInv;
    var ph := RunKeeps(c, schedule);
    more := RestFrom(c, schedule, ph, |Run(c, schedule).value.heap|);
  }

  // ---------------------------------------------------------------- the writer

  function WriterWeight(s: State): nat {
    (if s.started then 0 else 6) +
    match s.writer
    case Fresh => 5 case Tagging => 4 case Linking => 3 case Stepping => 2 case Idle => 1 case AtStartBarrier => 0 case Stopped => 0
  }

  /** The step that brings the writer closer to its end. */
  lemma WriterCloser(c: Config, s: State, ph: Phase) returns (l: Label)
    requires Inv(c, s, ph) && !s.writer.Stopped?
    ensures Enabled(c, s, l) && WriterWeight(Apply(c, s, l)) < WriterWeight(s) && !l.Produce?
  {
    l := if s.writer.Idle? then (if s.started then Stop else WriterReady)
         else if s.writer.AtStartBarrier? then Start else WriterStep;
    CanWrite(c, s, ph);
    hide Inv, NodeRound.WF;
    ApplyKeeps(c, s, ph, l);
    NoFaultNow(c, Apply(c, s, l), Next(s, l, ph));
    hide Apply, WriterWeight;
    if l == WriterStep { InsertDown(c, s); } else { LoopDown(c, s, l); }
  }

  lemma InsertDown(c: Config, s: State)
    requires BatchMachine.WF(c, s) && Enabled(c, s, WriterStep) && Apply(c, s, WriterStep).round.fault == Fine
    ensures WriterWeight(Apply(c, s, WriterStep)) < WriterWeight(s)
  {
    hide NodeRound.WF;
  }

  lemma LoopDown(c: Config, s: State, l: Label)
    requires BatchMachine.WF(c, s) && Enabled(c, s, l) && (l == Start || l == Stop || l == WriterReady)
    requires s.writer.AtStartBarrier? ==> !s.started
    ensures WriterWeight(Apply(c, s, l)) < WriterWeight(s)
  {
    hide NodeRound.WF;
  }

  lemma NoFaultNow(c: Config, s: State, ph: Phase)
    requires Inv(c, s, ph)
    ensures s.round.fault == Fine
  {
    hide ListInv;
  }

  lemma CanWrite(c: Config, s: State, ph: Phase)
    requires Inv(c, s, ph)
    ensures s.round.fault == Fine && (s.writer.AtStartBarrier? ==> !s.started)
    ensures !s.started ==> forall t :: 0 <= t < c.readers ==> s.pcs[t] == AtStart
  {
    hide LinkInv, LiveInv, RoundInv, Quiet;
    NoFaultNow(c, s, ph);
  }

  lemma {:induction false} WriterStops(c: Config, schedule: seq<Label>) returns (more: seq<Label>)
    requires c.readers >= 2 && Run(c, schedule).Some?
    ensures Run(c, schedule + more).Some? && Run(c, schedule + more).value.writer.Stopped? && Produced(more) == []
    decreases WriterWeight(Run(c, schedule).value)
  {
    hide WriterWeight, Inv, LogInv, Enabled, Apply, Run;
    var s := Run(c, schedule).value;
    if s.writer.Stopped? {
      more := [];
      assert schedule + [] == schedule;
    } else {
      var ph := RunKeeps(c, schedule);
      var l := WriterCloser(c, s, ph);
      RunOneMore(c, schedule, l);
      var rest := WriterStops(c, schedule + [l]);
      more := [l] + rest;
      NothingProduced(l, rest);
      assert schedule + more == schedule + [l] + rest;
    }
  }

  /** From every reachable state the writer can stop and the readers can come to rest, without another datum. */
  lemma CanAlwaysRest(c: Config, schedule: seq<Label>) returns (more: seq<Label>)
    requires c.readers >= 2 && Run(c, schedule).Some?
    ensures RestsAfter(c, schedule + more, |Produced(schedule)|) && Produced(schedule + more) == Produced(schedule)
  {
    hide Run, RestsAfter;
    var stop := WriterStops(c, schedule);
    ProducedConcat(schedule, stop);
    RunData(c, schedule + stop);
    var rest := ComesToRest(c, schedule + stop);
    more := stop + rest;
    assert schedule + more == schedule + stop + rest;
    NothingMore(c, schedule, more);
  }

  lemma NothingMore(c: Config, schedule: seq<Label>, more: seq<Label>)
    requires RestsAfter(c, schedule + more, |Produced(schedule)|)
    ensures Produced(schedule + more) == Produced(schedule)
  {
    ProducedConcat(schedule, more);
    RunData(c, schedule + more);
  }

  // ---------------------------------------------------------------- every input

  /** The writer completes the insert it is in. */
  lemma {:induction false} InsertEnds(c: Config, schedule: seq<Label>) returns (more: seq<Label>)
    requires c.readers >= 2 && Run(c, schedule).Some?
    requires Inserting(Run(c, schedule).value.writer) || Run(c, schedule).value.writer.Idle?
    ensures Run(c, schedule + more).Some? && Run(c, schedule + more).value.writer.Idle? && Produced(more) == []
    ensures Run(c, schedule + more).value.started == Run(c, schedule).value.started
    decreases WriterWeight(Run(c, schedule).value)
  {
    hide WriterWeight, Inv, LogInv, Enabled, Apply, Run;
    var s := Run(c, schedule).value;
    if s.writer.Idle? {
      more := [];
      assert schedule + [] == schedule;
    } else {
      var ph := RunKeeps(c, schedule);
      InsertCloser(c, s, ph);
      RunOneMore(c, schedule, WriterStep);
      var rest := InsertEnds(c, schedule + [WriterStep]);
      more := [WriterStep] + rest;
      NothingProduced(WriterStep, rest);
      assert schedule + more == schedule + [WriterStep] + rest;
    }
  }

  lemma InsertCloser(c: Config, s: State, ph: Phase)
    requires Inv(c, s, ph) && Inserting(s.writer)
    ensures Enabled(c, s, WriterStep) && WriterWeight(Apply(c, s, WriterStep)) < WriterWeight(s)
    ensures
      var s' := Apply(c, s, WriterStep);
      (Inserting(s'.writer) || s'.writer.Idle?) && s'.started == s.started
  {
    CanWrite(c, s, ph);
    hide Inv, NodeRound.WF;
    ApplyKeeps(c, s, ph, WriterStep);
    NoFaultNow(c, Apply(c, s, WriterStep), ph);
    InsertDown(c, s);
    hide WriterWeight;
  }

  /** The pre-fill is complete and the readers are let in. */
  lemma LetsIn(c: Config, schedule: seq<Label>) returns (more: seq<Label>)
    requires c.readers >= 2 && Run(c, schedule).Some?
    requires Run(c, schedule).value.writer.Idle? && !Run(c, schedule).value.started
    ensures Run(c, schedule + more).Some? && Produced(more) == []
    ensures Run(c, schedule + more).value.writer.Idle? && Run(c, schedule + more).value.started
  {
    hide Run, Inv, LogInv, NodeRound.WF;
    var s := Run(c, schedule).value;
    var ph := RunKeeps(c, schedule);
    CanWrite(c, s, ph);
    RunOneMore(c, schedule, WriterReady);
    RunOneMore(c, schedule + [WriterReady], Start);
    more := [WriterReady, Start];
    NothingProduced(Start, []);
    NothingProduced(WriterReady, [Start]);
    assert schedule + more == schedule + [WriterReady] + [Start];
  }

  /** One more datum, which the writer can insert. */
  lemma TakesOne(c: Config, schedule: seq<Label>, datum: SensorData) returns (more: seq<Label>)
    requires c.readers >= 2 && Run(c, schedule).Some? && Run(c, schedule).value.writer.Idle?
    requires Run(c, schedule).value.started || |Produced(schedule)| < c.readers
    ensures Run(c, schedule + more).Some? && Run(c, schedule + more).value.writer.Idle?
    ensures Produced(schedule + more) == Produced(schedule) + [datum]
    ensures Run(c, schedule + more).value.started == Run(c, schedule).value.started
  {
    hide Run, Inv, LogInv, NodeRound.WF, Produced;
    var s := Run(c, schedule).value;
    var ph := RunKeeps(c, schedule);
    CanWrite(c, s, ph);
    RunData(c, schedule);
    RunOneMore(c, schedule, Produce(datum));
    var rest := InsertEnds(c, schedule + [Produce(datum)]);
    more := [Produce(datum)] + rest;
    ProducedInOrder(schedule, Produce(datum), rest);
    assert schedule + more == schedule + [Produce(datum)] + rest;
  }

  /** A run that inserts given data, the first of them before the readers are let in. */
  ghost predicate Fed(c: Config, schedule: seq<Label>, data: seq<SensorData>) {
    && Run(c, schedule).Some? && Run(c, schedule).value.writer.Idle?
    && Produced(schedule) == data
    && (Run(c, schedule).value.started <==> |data| > c.readers)
  }

  lemma FeedOne(c: Config, schedule: seq<Label>, data: seq<SensorData>, datum: SensorData) returns (next: seq<Label>)
    requires c.readers >= 2 && Fed(c, schedule, data)
    ensures Fed(c, next, data + [datum])
  {
    hide Run, Produced;
    next := schedule;
    if |data| == c.readers {
      var start := LetsIn(c, schedule);
      ProducedConcat(schedule, start);
      next := schedule + start;
      assert Produced(next) == data;
    }
    var insert := TakesOne(c, next, datum);
    next := next + insert;
  }

  lemma {:induction false} Feeds(c: Config, data: seq<SensorData>) returns (schedule: seq<Label>)
    requires c.readers >= 2
    ensures Fed(c, schedule, data)
  {
    schedule := [];
    if data != [] {
      var n := |data| - 1;
      hide Fed;
      schedule := Feeds(c, data[..n]);
      schedule := FeedOne(c, schedule, data[..n], data[n]);
      assert data == data[..n] + [data[n]];
    }
  }

  /** Whatever data the callback delivers, some run inserts them all in order and ends with the readers at rest. */
  lemma EveryInputRests(c: Config, data: seq<SensorData>) returns (schedule: seq<Label>)
    requires c.readers >= 2
    ensures RestsAfter(c, schedule, |data|) && Produced(schedule) == data
  {
    hide Run, RestsAfter, Produced;
    var fed := Feeds(c, data);
    var more := CanAlwaysRest(c, fed);
    schedule := fed + more;
  }

  /** Before the readers are let in, at most one batch is buffered and no token is posted. */
  lemma PreFillBound(c: Config, schedule: seq<Label>)
    requires c.readers >= 2 && Run(c, schedule).Some? && !Run(c, schedule).value.started
    ensures |Produced(schedule)| <= c.readers && Run(c, schedule).value.sem == 0
  {
    hide Inv, LogInv;
    RunData(c, schedule);
    BufferedFew(c, schedule);
    var ph := RunKeeps(c, schedule);
    NoTokenYet(c, Run(c, schedule).value, ph);
  }

  lemma {:induction false} BufferedFew(c: Config, schedule: seq<Label>)
    requires Run(c, schedule).Some? && !Run(c, schedule).value.started
    ensures |Run(c, schedule).value.heap| <= c.readers
  {
    if schedule != [] {
      var before, l := schedule[..|schedule| - 1], schedule[|schedule| - 1];
      StillBuffered(c, Run(c, before).value, l);
      hide Apply, Enabled;
      BufferedFew(c, before);
    }
  }

  lemma StillBuffered(c: Config, s: State, l: Label)
    requires BatchMachine.WF(c, s) && Enabled(c, s, l) && !Apply(c, s, l).started
    ensures !s.started && (|s.heap| <= c.readers ==> |Apply(c, s, l).heap| <= c.readers)
  {
    hide NodeRound.WF;
  }

  lemma NoTokenYet(c: Config, s: State, ph: Phase)
    requires Inv(c, s, ph) && !s.started && |s.heap| <= c.readers
    ensures s.sem == 0
  {
    hide LinkInv, LiveInv, Quiet;
    if s.posts > 0 { FirstNodeMono(1, s.posts, c.readers); }
  }
}
