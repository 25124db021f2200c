/**
 The hand-off protocol cannot get stuck, and after the writer has stopped it cannot run for ever: every schedule ends
 with all readers done.
 */
module HandoffProgress {
  import opened Basics
  import opened Heap
  import opened HandoffMachine
  import opened HandoffData
  import opened HandoffInvariant
  import opened HandoffProofs
  import opened HandoffTheorems

  // ---------------------------------------------------------------- some step is possible

  /** A reader waiting for a mutex waits for a reader that can move. */
  lemma HolderMoves(c: Config, s: State, ph: Phase, t: nat)
    requires Inv(c, s, ph) && t < c.readers && (s.pcs[t].LockList? || s.pcs[t].LockCall?)
    ensures exists u: nat :: Enabled(c, s, ReaderStep(u))
  {
    hide LinkInv, CarryInv, LogInv, LiveInv, CountInv, CopyInv, PhaseInv;
    if s.pcs[t].LockList? && s.listLock.Some? {
      assert InList(s.pcs[s.listLock.value]);
      assert Enabled(c, s, ReaderStep(s.listLock.value));
    } else if s.pcs[t].LockCall? && s.callLock.Some? {
      assert InCall(s.pcs[s.callLock.value]);
      assert Enabled(c, s, ReaderStep(s.callLock.value));
    } else {
      assert Enabled(c, s, ReaderStep(t));
    }
  }

  lemma ReadersMove(c: Config, s: State, ph: Phase)
    requires Inv(c, s, ph) && s.started && !Complete(c, s)
    ensures exists l: Label :: Enabled(c, s, l)
  {
    if t: nat :| t < c.readers && !s.pcs[t].AtBarrier? && !s.pcs[t].Exited? {
      assert !s.pcs[t].AtStart?;
      if s.pcs[t].LockList? || s.pcs[t].LockCall? {
        HolderMoves(c, s, ph, t);
        var u: nat :| Enabled(c, s, ReaderStep(u));
      } else {
        assert Enabled(c, s, ReaderStep(t));
      }
    } else {
      var t: nat :| t < c.readers && s.pcs[t].AtBarrier?;
      assert ph.Sharing?;
      assert Enabled(c, s, Open(0));
    }
  }

  /** Every reachable state is complete or has a step. */
  lemma NeverStuck(c: Config, s: State)
    requires c.readers > 0 && c.sticky && Reached(c, s)
    ensures HandoffMachine.WF(c, s) && (Complete(c, s) || exists l: Label :: Enabled(c, s, l))
  {
    var ph := ReachedInv(c, s);
    hide DataInv, LinkInv;
    if s.started {
      if !Complete(c, s) { ReadersMove(c, s, ph); }
    } else if s.writer == Idle {
      assert Enabled(c, s, WriterReady);
    } else if s.writer.AtStartBarrier? {
      assert Enabled(c, s, Start);
    } else {
      assert Enabled(c, s, WriterStep);
    }
  }

  // ---------------------------------------------------------------- how much is left to do

  /** Steps left for a reader with `n` nodes in the heap, if `head` does not move. */
  function Weight(n: nat, pc: PC): nat {
    match pc
    case AtStart => 0
    case TryToken => n + 38
    case Look(drain) => if drain then 20 else n + 37
    case LockList(drain) => if drain then 19 else n + 36
    case Copy(drain) => if drain then 18 else n + 35
    case Advance(drain, _) => if drain then 17 else n + 34
    case UnlockList(drain, _, _) => if drain then n + 27 else n + 33
    case FreeNode(drain, _, _) => if drain then n + 26 else n + 32
    case LockCall(_, _) => n + 31
    case Invoke(drain, _, _) => if drain then n + 25 else n + 30
    case CountLoad(drain) => if drain then n + 24 else n + 29
    case CountStore(drain, _) => if drain then n + 23 else n + 28
    case Retry => n + 28
    case UnlockCall => n + 27
    case DropLock(again) => if again then n + 27 else n + 25
    case TryRead => n + 26
    case ToBarrier => n + 24
    case AtBarrier => n + 23
    case Measure => n + 22
    case Walk(cur, _) => if cur.Some? && cur.value < n then 21 + n - cur.value else 21
    case Exited => 0
  }

  function Weights(s: State): (w: seq<nat>)
    ensures |w| == |s.pcs| && forall t :: 0 <= t < |w| ==> w[t] == Weight(|s.heap|, s.pcs[t])
  {
    seq(|s.pcs|, t requires 0 <= t < |s.pcs| => Weight(|s.heap|, s.pcs[t]))
  }

  /** A bound on the steps left once the writer has stopped: each removal may start another lap of the drain. */
  function StepsLeft(s: State): nat {
    Laps(if s.removed <= |s.heap| then |s.heap| - s.removed else 0, |s.heap| + 11) + SumOf(Weights(s))
  }

  function Laps(laps: nat, steps: nat): nat { if laps == 0 then 0 else Laps(laps - 1, steps) + steps }

  /** A step of one reader. */
  lemma ReaderDescends(c: Config, s: State, s': State, t: nat)
    requires t < |s.pcs| == |s'.pcs| && |s'.heap| == |s.heap| && s'.pcs == s.pcs[t := s'.pcs[t]]
    requires s.removed <= s'.removed <= |s.heap|
    requires
      var w, w' := Weight(|s.heap|, s.pcs[t]), Weight(|s.heap|, s'.pcs[t]);
      if s'.removed == s.removed then w' < w else s'.removed == s.removed + 1 && w' <= w + |s.heap| + 10
    ensures StepsLeft(s') < StepsLeft(s)
  {
    hide Weight;
    var w, w' := Weights(s), Weights(s');
    assert w' == w[t := w'[t]];
    SumUpdate(w, t, w'[t]);
  }

  lemma AttemptDescends(c: Config, s: State, t: nat)
    requires HandoffMachine.WF(c, s) && t < c.readers && Attempting(s.pcs[t]) && !s.writeLocked && s.removed <= |s.heap|
    ensures StepsLeft(Attempt(c, s, t)) < StepsLeft(s)
  {
    hide StepsLeft;
    ReaderDescends(c, s, Attempt(c, s, t), t);
  }

  lemma RemoveDescends(c: Config, s: State, t: nat)
    requires HandoffMachine.WF(c, s) && t < c.readers && Removing(s.pcs[t]) && s.fault == Fine
    requires Remove(c, s, t).fault == Fine && Remove(c, s, t).removed <= |s.heap|
    ensures StepsLeft(Remove(c, s, t)) < StepsLeft(s)
  {
    hide StepsLeft, Weight;
    RemoveMoves(c, s, t);
    ReaderDescends(c, s, Remove(c, s, t), t);
  }

  /** What a step of `sbuffer_remove` does to the measure. */
  ghost predicate Lighter(c: Config, s: State, s': State, t: nat)
    requires t < |s.pcs| == |s'.pcs|
  {
    var w, w' := Weight(|s.heap|, s.pcs[t]), Weight(|s.heap|, s'.pcs[t]);
    && s'.pcs == s.pcs[t := s'.pcs[t]]
    && (if s'.removed == s.removed then w' < w else s'.removed == s.removed + 1 && w' <= w + |s.heap| + 10)
  }

  lemma RemoveMoves(c: Config, s: State, t: nat)
    requires HandoffMachine.WF(c, s) && t < c.readers && Removing(s.pcs[t]) && s.fault == Fine
    requires Remove(c, s, t).fault == Fine
    ensures Lighter(c, s, Remove(c, s, t), t)
  {
    hide Lighter;
    if s.pcs[t].Look? || s.pcs[t].LockList? || s.pcs[t].Copy? { RemoveBegins(c, s, t); } else { RemoveEnds(c, s, t); }
  }

  lemma RemoveBegins(c: Config, s: State, t: nat)
    requires HandoffMachine.WF(c, s) && t < c.readers && (s.pcs[t].Look? || s.pcs[t].LockList? || s.pcs[t].Copy?)
    requires s.fault == Fine && Remove(c, s, t).fault == Fine
    ensures Lighter(c, s, Remove(c, s, t), t)
  {
  }

  lemma RemoveEnds(c: Config, s: State, t: nat)
    requires HandoffMachine.WF(c, s) && t < c.readers && (s.pcs[t].Advance? || s.pcs[t].UnlockList? || s.pcs[t].FreeNode?)
    requires s.fault == Fine && Remove(c, s, t).fault == Fine
    ensures Lighter(c, s, Remove(c, s, t), t)
  {
  }

  lemma HandleDescends(c: Config, s: State, t: nat)
    requires HandoffMachine.WF(c, s) && t < c.readers && s.removed <= |s.heap|
    requires s.pcs[t].LockCall? || s.pcs[t].Invoke? || s.pcs[t].CountLoad? || s.pcs[t].CountStore? || s.pcs[t].UnlockCall?
    ensures StepsLeft(Handle(c, s, t)) < StepsLeft(s)
  {
    hide StepsLeft;
    ReaderDescends(c, s, Handle(c, s, t), t);
  }

  lemma SizeDescends(c: Config, s: State, t: nat)
    requires HandoffMachine.WF(c, s) && t < c.readers && Measuring(s.pcs[t]) && s.removed <= |s.heap| && s.fault == Fine
    requires Size(c, s, t).fault == Fine
    requires s.pcs[t].Walk? ==> s.pcs[t].cur.Some? && s.pcs[t].cur.value < |s.heap|
    requires forall k :: 0 <= k < |s.heap| && s.heap[k].next.Some? ==> s.heap[k].next.value == k + 1
    ensures StepsLeft(Size(c, s, t)) < StepsLeft(s)
  {
    hide StepsLeft, Weight;
    SizeMoves(c, s, t);
    ReaderDescends(c, s, Size(c, s, t), t);
  }

  lemma SizeMoves(c: Config, s: State, t: nat)
    requires HandoffMachine.WF(c, s) && t < c.readers && Measuring(s.pcs[t]) && s.fault == Fine
    requires Size(c, s, t).fault == Fine
    requires s.pcs[t].Walk? ==> s.pcs[t].cur.Some? && s.pcs[t].cur.value < |s.heap|
    requires forall k :: 0 <= k < |s.heap| && s.heap[k].next.Some? ==> s.heap[k].next.value == k + 1
    ensures Lighter(c, s, Size(c, s, t), t) && Size(c, s, t).removed == s.removed
  {
  }

  lemma ReadDescends(c: Config, s: State, ph: Phase, t: nat)
    requires Inv(c, s, ph) && s.writer.Stopped? && Enabled(c, s, ReaderStep(t))
    ensures StepsLeft(Read(c, s, t)) < StepsLeft(s)
  {
    StoppedFacts(c, s, ph, t);
    hide Inv, StepsLeft, Attempt, Remove, Handle, Size;
    if Attempting(s.pcs[t]) { AttemptDescends(c, s, t); }
    else if Removing(s.pcs[t]) { RemoveDescends(c, s, t); }
    else if Measuring(s.pcs[t]) { SizeDescends(c, s, t); }
    else { HandleDescends(c, s, t); }
  }

  lemma StoppedFacts(c: Config, s: State, ph: Phase, t: nat)
    requires Inv(c, s, ph) && s.writer.Stopped? && Enabled(c, s, ReaderStep(t))
    ensures HandoffMachine.WF(c, s) && !s.writeLocked && s.removed <= |s.heap| && s.fault == Fine
    ensures Read(c, s, t).fault == Fine && Read(c, s, t).removed <= |Read(c, s, t).heap| == |s.heap|
    ensures s.pcs[t].Walk? ==> s.pcs[t].cur.Some? && s.pcs[t].cur.value < |s.heap|
    ensures forall k :: 0 <= k < |s.heap| && s.heap[k].next.Some? ==> s.heap[k].next.value == k + 1
  {
    ReadKeeps(c, s, ph, t);
    hide DataInv, Read;
  }

  lemma OpenDescends(c: Config, s: State, serial: nat)
    requires HandoffMachine.WF(c, s) && Enabled(c, s, Open(serial)) && c.readers > 0
    ensures StepsLeft(Apply(c, s, Open(serial))) < StepsLeft(s)
  {
    hide Weights;
    OpenWeights(c, s, serial);
  }

  lemma OpenWeights(c: Config, s: State, serial: nat)
    requires HandoffMachine.WF(c, s) && Enabled(c, s, Open(serial)) && c.readers > 0
    ensures SumOf(Weights(Apply(c, s, Open(serial)))) < SumOf(Weights(s))
  {
    var w, w' := Weights(s), Weights(Apply(c, s, Open(serial)));
    SumAtLeast(w, serial);
    SumSingle(w', serial);
  }

  /** After the writer has stopped, every step of every reader leaves fewer steps. */
  lemma StepDescends(c: Config, s: State, ph: Phase, l: Label)
    requires Inv(c, s, ph) && s.writer.Stopped? && Enabled(c, s, l)
    ensures Apply(c, s, l).writer.Stopped? && StepsLeft(Apply(c, s, l)) < StepsLeft(s) && !l.Produce?
  {
    assert s.started;
    hide Inv, StepsLeft;
    match l {
      case ReaderStep(t) =>
        ReadDescends(c, s, ph, t);
      case Open(serial) =>
        OpenDescends(c, s, serial);
      case _ =>
    }
  }

  // ---------------------------------------------------------------- the results

  /** No continuation of a run whose writer has stopped is longer than the steps left there. */
  lemma {:induction false} BoundedAfterStop(c: Config, schedule: seq<Label>, more: seq<Label>)
    requires c.readers > 0 && c.sticky && Run(c, schedule).Some? && Run(c, schedule).value.writer.Stopped?
    requires Run(c, schedule + more).Some?
    ensures Run(c, schedule + more).value.writer.Stopped?
    ensures |more| + StepsLeft(Run(c, schedule + more).value) <= StepsLeft(Run(c, schedule).value)
  {
    hide StepsLeft, Inv, Enabled, Apply;
    if more == [] {
      assert schedule + more == schedule;
    } else {
      var front, l := more[..|more| - 1], more[|more| - 1];
      var all := schedule + more;
      assert all[..|all| - 1] == schedule + front && all[|all| - 1] == l;
      BoundedAfterStop(c, schedule, front);
      var ph := RunKeeps(c, schedule + front);
      StepDescends(c, Run(c, schedule + front).value, ph, l);
    }
  }

  lemma RunOneMore(c: Config, schedule: seq<Label>, l: Label)
    requires Run(c, schedule).Some? && Enabled(c, Run(c, schedule).value, l)
    ensures Run(c, schedule + [l]) == Some(Apply(c, Run(c, schedule).value, l))
  {
    assert (schedule + [l])[..|schedule|] == schedule;
  }

  /** The run of this schedule exists and all threads are done. */
  ghost predicate CompletedBy(c: Config, schedule: seq<Label>) {
    Run(c, schedule).Some? && Complete(c, Run(c, schedule).value)
  }

  /**
   From every reachable state in which the writer has stopped, a complete state is reached; by `NeverStuck` and
   `BoundedAfterStop` every continuation that is carried on as long as possible gets there.
   */
  lemma {:induction false} Completes(c: Config, schedule: seq<Label>) returns (more: seq<Label>)
    requires c.readers > 0 && c.sticky && Run(c, schedule).Some? && Run(c, schedule).value.writer.Stopped?
    ensures CompletedBy(c, schedule + more) && Produced(more) == []
    decreases StepsLeft(Run(c, schedule).value)
  {
    hide StepsLeft, Inv, Enabled, Apply, Run, Complete;
    var s := Run(c, schedule).value;
    var ph := RunKeeps(c, schedule);
    if Complete(c, s) {
      more := [];
      assert schedule + [] == schedule;
    } else {
      hide CompletedBy;
      assert Reached(c, s);
      NeverStuck(c, s);
      var l :| Enabled(c, s, l);
      StepDescends(c, s, ph, l);
      RunOneMore(c, schedule, l);
      var rest := Completes(c, schedule + [l]);
      more := [l] + rest;
      NothingProduced(l, rest);
      assert schedule + more == schedule + [l] + rest;
    }
  }

  // ---------------------------------------------------------------- the writer

  function WriterWeight(s: State): nat {
    (if s.started then 0 else 5) +
    match s.writer
    case Linking => 4 case Stepping => 3 case Posting => 2 case Idle => 1 case AtStartBarrier => 0 case Stopped => 0
  }

  /** The step that brings the writer closer to its end. */
  lemma WriterCloser(c: Config, s: State, ph: Phase) returns (l: Label)
    requires Inv(c, s, ph) && !s.writer.Stopped?
    ensures Enabled(c, s, l) && WriterWeight(Apply(c, s, l)) < WriterWeight(s) && !l.Produce?
  {
    l := if s.writer.Idle? then (if s.started then Stop else WriterReady)
         else if s.writer.AtStartBarrier? then Start else WriterStep;
    hide DataInv, LinkInv;
    assert Enabled(c, s, l);
    ApplyKeeps(c, s, ph, l);
    assert Apply(c, s, l).fault == Fine;
  }

  lemma {:induction false} WriterStops(c: Config, schedule: seq<Label>) returns (more: seq<Label>)
    requires c.readers > 0 && c.sticky && Run(c, schedule).Some?
    ensures Run(c, schedule + more).Some? && Run(c, schedule + more).value.writer.Stopped? && Produced(more) == []
    decreases WriterWeight(Run(c, schedule).value)
  {
    hide WriterWeight, Inv, Enabled, Apply, Run;
    var s := Run(c, schedule).value;
    if s.writer.Stopped? {
      more := [];
      assert schedule + [] == schedule;
    } else {
      var ph := RunKeeps(c, schedule);
      var l := WriterCloser(c, s, ph);
      RunOneMore(c, schedule, l);
      var rest := WriterStops(c, schedule + [l]);
      more := [l] + rest;
      NothingProduced(l, rest);
      assert schedule + more == schedule + [l] + rest;
    }
  }

  /** From every reachable state a complete one can be reached, without another datum. */
  lemma CanAlwaysComplete(c: Config, schedule: seq<Label>) returns (more: seq<Label>)
    requires c.readers > 0 && c.sticky && Run(c, schedule).Some?
    ensures CompletedBy(c, schedule + more) && Produced(schedule + more) == Produced(schedule)
  {
    hide Run, CompletedBy, Produced;
    var stop := WriterStops(c, schedule);
    var rest := Completes(c, schedule + stop);
    more := stop + rest;
    assert schedule + more == schedule + stop + rest;
    ProducedConcat(schedule, stop);
    ProducedConcat(schedule + stop, rest);
  }

  /** A run that cannot be continued has handled every datum exactly once. */
  lemma MaximalRunsDeliver(c: Config, schedule: seq<Label>)
    requires c.readers > 0 && c.sticky && Run(c, schedule).Some?
    requires forall l: Label :: !Enabled(c, Run(c, schedule).value, l)
    ensures CompletedBy(c, schedule) && AllHandled(Run(c, schedule).value, Produced(schedule))
  {
    hide Run;
    var s := Run(c, schedule).value;
    assert Reached(c, s);
    NeverStuck(c, s);
    ExactlyOnce(c, schedule);
  }

  // ---------------------------------------------------------------- every input

  /** The writer completes the insert it is in. */
  lemma {:induction false} InsertEnds(c: Config, schedule: seq<Label>) returns (more: seq<Label>)
    requires c.readers > 0 && c.sticky && Run(c, schedule).Some?
    requires !Run(c, schedule).value.writer.AtStartBarrier? && !Run(c, schedule).value.writer.Stopped?
    ensures Run(c, schedule + more).Some? && Run(c, schedule + more).value.writer.Idle? && Produced(more) == []
    ensures Run(c, schedule + more).value.started == Run(c, schedule).value.started
    ensures Run(c, schedule + more).value.atEnd == Run(c, schedule).value.atEnd
    decreases WriterWeight(Run(c, schedule).value)
  {
    hide WriterWeight, Inv, Enabled, Apply, Run;
    var s := Run(c, schedule).value;
    if s.writer.Idle? {
      more := [];
      assert schedule + [] == schedule;
    } else {
      var ph := RunKeeps(c, schedule);
      InsertCloser(c, s, ph);
      RunOneMore(c, schedule, WriterStep);
      var rest := InsertEnds(c, schedule + [WriterStep]);
      more := [WriterStep] + rest;
      NothingProduced(WriterStep, rest);
      assert schedule + more == schedule + [WriterStep] + rest;
    }
  }

  lemma InsertCloser(c: Config, s: State, ph: Phase)
    requires Inv(c, s, ph) && !s.writer.Idle? && !s.writer.AtStartBarrier? && !s.writer.Stopped?
    ensures Enabled(c, s, WriterStep) && WriterWeight(Apply(c, s, WriterStep)) < WriterWeight(s)
    ensures
      var s' := Apply(c, s, WriterStep);
      !s'.writer.AtStartBarrier? && !s'.writer.Stopped? && s'.started == s.started && s'.atEnd == s.atEnd
  {
    var l := WriterCloser(c, s, ph);
    hide Inv;
  }

  /** The first loop is over, with all its nodes, and the readers are let in. */
  lemma LetsIn(c: Config, schedule: seq<Label>) returns (more: seq<Label>)
    requires c.readers > 0 && c.sticky && Run(c, schedule).Some? && |Produced(schedule)| == c.readers + 1
    requires Run(c, schedule).value.writer.Idle? && !Run(c, schedule).value.started
    ensures Run(c, schedule + more).Some? && Produced(more) == []
    ensures var s := Run(c, schedule + more).value;
      s.writer.Idle? && s.started && !s.atEnd
  {
    hide Run, Inv, Produced;
    var s := Run(c, schedule).value;
    var ph := RunKeeps(c, schedule);
    RunData(c, schedule);
    CanStart(c, s, ph);
    RunOneMore(c, schedule, WriterReady);
    RunOneMore(c, schedule + [WriterReady], Start);
    more := [WriterReady, Start];
    assert [Start] + [] == [Start];
    NothingProduced(Start, []);
    NothingProduced(WriterReady, [Start]);
    assert more == [WriterReady] + [Start];
    assert schedule + more == schedule + [WriterReady] + [Start];
  }

  lemma CanStart(c: Config, s: State, ph: Phase)
    requires Inv(c, s, ph)
    ensures HandoffMachine.WF(c, s) && s.fault == Fine
    ensures !s.started ==> forall t :: 0 <= t < c.readers ==> s.pcs[t] == AtStart
  {
    hide DataInv, LinkInv;
  }

  /** One more datum, which the writer can insert. */
  lemma TakesOne(c: Config, schedule: seq<Label>, datum: SensorData) returns (more: seq<Label>)
    requires c.readers > 0 && c.sticky && Run(c, schedule).Some? && Run(c, schedule).value.writer.Idle?
    requires !Run(c, schedule).value.atEnd && (Run(c, schedule).value.started || |Produced(schedule)| < c.readers + 1)
    ensures Run(c, schedule + more).Some? && Run(c, schedule + more).value.writer.Idle?
    ensures Produced(schedule + more) == Produced(schedule) + [datum]
    ensures Run(c, schedule + more).value.started == Run(c, schedule).value.started
    ensures Run(c, schedule + more).value.atEnd == Run(c, schedule).value.atEnd
  {
    hide Run, Inv, Produced;
    var s := Run(c, schedule).value;
    var ph := RunKeeps(c, schedule);
    CanStart(c, s, ph);
    RunData(c, schedule);
    RunOneMore(c, schedule, Produce(datum));
    var rest := InsertEnds(c, schedule + [Produce(datum)]);
    more := [Produce(datum)] + rest;
    ProducedInOrder(schedule, Produce(datum), rest);
    assert schedule + more == schedule + [Produce(datum)] + rest;
  }

  /** A run that inserts given data, the first `readers + 1` of them before the readers are let in. */
  ghost predicate Fed(c: Config, schedule: seq<Label>, data: seq<SensorData>) {
    && Run(c, schedule).Some?
    && Produced(schedule) == data
    && var s := Run(c, schedule).value;
      s.writer.Idle? && !s.atEnd && (s.started <==> |data| > c.readers + 1)
  }

  lemma FeedOne(c: Config, schedule: seq<Label>, data: seq<SensorData>, datum: SensorData) returns (next: seq<Label>)
    requires c.readers > 0 && c.sticky && Fed(c, schedule, data)
    ensures Fed(c, next, data + [datum])
  {
    hide Run, Produced;
    next := schedule;
    if |data| == c.readers + 1 {
      var start := LetsIn(c, schedule);
      ProducedConcat(schedule, start);
      next := schedule + start;
      assert Produced(next) == data;
    }
    var insert := TakesOne(c, next, datum);
    next := next + insert;
  }

  lemma {:induction false} Feeds(c: Config, data: seq<SensorData>) returns (schedule: seq<Label>)
    requires c.readers > 0 && c.sticky
    ensures Fed(c, schedule, data)
  {
    schedule := [];
    if data != [] {
      var n := |data| - 1;
      hide Fed;
      schedule := Feeds(c, data[..n]);
      schedule := FeedOne(c, schedule, data[..n], data[n]);
      assert data == data[..n] + [data[n]];
    }
  }

  /** Whatever data the callback delivers, some run takes them all, in order, and is complete. */
  lemma EveryInputCompletes(c: Config, data: seq<SensorData>) returns (schedule: seq<Label>)
    requires c.readers > 0 && c.sticky
    ensures CompletedBy(c, schedule) && Produced(schedule) == data
  {
    hide Run, CompletedBy, Produced;
    var fed := Feeds(c, data);
    var more := CanAlwaysComplete(c, fed);
    schedule := fed + more;
  }

  /** Before the readers are let in, at most `readers + 1` nodes are buffered and nothing is posted. */
  lemma PreFillBound(c: Config, schedule: seq<Label>)
    requires c.readers > 0 && c.sticky && Run(c, schedule).Some? && !Run(c, schedule).value.started
    ensures |Produced(schedule)| <= c.readers + 1 && Run(c, schedule).value.posts == 0
  {
    RunData(c, schedule);
    var ph := RunKeeps(c, schedule);
    hide DataInv, LinkInv;
  }
}
