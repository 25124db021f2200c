/** Every step of the batch protocol keeps the invariant. */
module BatchProofs {
  import opened Basics
  import opened Heap
  import opened NodeRound
  import opened BatchMachine
  import opened BatchInvariant

  // ---------------------------------------------------------------- the writer

  /** The phase invariant only looks at the batch at the front, which the writer leaves alone. */
  lemma WriterKeepsPhase(c: Config, s: State, s': State, ph: Phase)
    requires Inv(c, s, ph) && BatchMachine.WF(c, s')
    requires s'.pcs == s.pcs && s'.round == s.round && s'.commits == s.commits && s'.batches == s.batches && s'.started == s.started
    requires ListInv(c, s', ph)
    requires |s.heap| <= |s'.heap| && forall k :: 0 <= k < |s.heap| ==> s'.heap[k].datum == s.heap[k].datum
    ensures Inv(c, s', ph)
  {
    if ph.Processing? {
      BatchReady(c, s', ph);
      HeapGrows(s.heap, s'.heap, s.round, Base(c, s), c.readers, c.callbacks);
      forall t | 0 <= t < c.readers ensures ReaderInv(c, s', t) {
        assert ReaderInv(c, s, t);
      }
    }
  }

  lemma ProduceKeeps(c: Config, s: State, ph: Phase, datum: SensorData)
    requires Inv(c, s, ph) && Enabled(c, s, Produce(datum))
    ensures Inv(c, Apply(c, s, Produce(datum)), ph)
  {
    var s' := Apply(c, s, Produce(datum));
    FreedBehind(c, s, ph);
    AppendKeeps(c, s, datum, FreedCount(c, s, ph));
    hide TokenInv, WriterInv, LinkInv, LiveInv, PhaseInv, NodeRound.WF;
    WriterKeepsPhase(c, s, s', ph);
  }

  lemma AppendKeeps(c: Config, s: State, datum: SensorData, freed: nat)
    requires c.readers >= 2 && s.writer.Idle? && TokenInv(c, s) && WriterInv(c, s)
    requires LinkInv(s.heap, Linked(s), Tagged(s), c.readers) && LiveInv(s.heap, freed) && freed <= |s.heap|
    ensures var s' := s.(heap := s.heap + [Node(datum, 0, None, true)], writer := Fresh);
      TokenInv(c, s') && WriterInv(c, s') && LinkInv(s'.heap, Linked(s'), Tagged(s'), c.readers) && LiveInv(s'.heap, freed)
  {
  }

  /** Nothing that is not linked yet has been freed. */
  lemma FreedBehind(c: Config, s: State, ph: Phase)
    requires Inv(c, s, ph)
    ensures FreedCount(c, s, ph) <= Linked(s)
  {
    if Linked(s) > 0 {
      TailIsLive(c, s, ph);
    } else if s.commits > 0 {
      Slack(c, s);
    }
  }

  lemma FreshCounts(c: Config, s: State)
    requires c.readers >= 2 && s.writer.Fresh? && TokenInv(c, s) && WriterInv(c, s)
    ensures var s' := if s.writeIndex == c.readers then s.(writeIndex := 0, sem := s.sem + 1, posts := s.posts + 1, writer := Tagging) else s.(writer := Tagging);
      TokenInv(c, s') && WriterInv(c, s')
  {
  }

  lemma TaggingCounts(c: Config, s: State, heap': seq<Node>)
    requires c.readers >= 2 && s.writer.Tagging? && TokenInv(c, s) && WriterInv(c, s) && |heap'| == |s.heap|
    ensures var s' := s.(heap := heap', writeIndex := s.writeIndex + 1, writer := Linking); TokenInv(c, s') && WriterInv(c, s')
  {
  }

  lemma TaggingLinks(c: Config, s: State, freed: nat)
    requires c.readers >= 2 && s.writer.Tagging? && WriterInv(c, s)
    requires LinkInv(s.heap, Linked(s), Tagged(s), c.readers) && LiveInv(s.heap, freed)
    ensures var k := |s.heap| - 1;
      var heap' := s.heap[k := s.heap[k].(tag := s.writeIndex)];
      LinkInv(heap', k, k + 1, c.readers) && LiveInv(heap', freed)
  {
    SlotInBatch(s.posts, s.writeIndex, c.readers);
  }

  lemma FirstLinkCounts(c: Config, s: State)
    requires c.readers >= 2 && s.writer.Linking? && TokenInv(c, s) && WriterInv(c, s)
    requires s.tail == None && s.batches == 0 && |s.heap| > 0
    ensures var s' := s.(head := Some((|s.heap| - 1) as nat), tail := Some((|s.heap| - 1) as nat), writer := Idle);
      TokenInv(c, s') && WriterInv(c, s')
  {
  }

  lemma LinkingCounts(c: Config, s: State, heap': seq<Node>)
    requires c.readers >= 2 && s.writer.Linking? && TokenInv(c, s) && WriterInv(c, s) && |heap'| == |s.heap| && s.tail.Some?
    ensures var s' := s.(heap := heap', writer := Stepping); TokenInv(c, s') && WriterInv(c, s')
  {
  }

  lemma LinkingLinks(heap: seq<Node>, readers: nat, freed: nat)
    requires readers > 0 && |heap| >= 2 && LinkInv(heap, |heap| - 1, |heap|, readers) && LiveInv(heap, freed)
    ensures var k := |heap| - 2;
      var heap' := heap[k := heap[k].(next := Some(k + 1))];
      LinkInv(heap', |heap|, |heap|, readers) && LiveInv(heap', freed)
  {
  }

  lemma SteppingCounts(c: Config, s: State)
    requires c.readers >= 2 && s.writer.Stepping? && TokenInv(c, s) && WriterInv(c, s)
    ensures var s' := s.(tail := Some(|s.heap| - 1), writer := Idle); TokenInv(c, s') && WriterInv(c, s')
  {
  }

  lemma PostKeeps(c: Config, s: State, ph: Phase)
    requires Inv(c, s, ph) && s.writer.Fresh?
    ensures Inv(c, Write(c, s), ph)
  {
    hide TokenInv, WriterInv, LinkInv, LiveInv, PhaseInv, NodeRound.WF;
    FreshCounts(c, s);
    WriterKeepsPhase(c, s, Write(c, s), ph);
  }

  lemma TagKeeps(c: Config, s: State, ph: Phase)
    requires Inv(c, s, ph) && s.writer.Tagging?
    ensures Inv(c, Write(c, s), ph)
  {
    hide TokenInv, WriterInv, LinkInv, LiveInv, PhaseInv, NodeRound.WF;
    var s' := Write(c, s);
    TaggingCounts(c, s, s'.heap);
    TaggingLinks(c, s, FreedCount(c, s, ph));
    WriterKeepsPhase(c, s, s', ph);
  }

  lemma LinkKeeps(c: Config, s: State, ph: Phase)
    requires Inv(c, s, ph) && s.writer.Linking? && s.tail.Some?
    ensures Inv(c, Write(c, s), ph)
  {
    hide TokenInv, WriterInv, LinkInv, LiveInv, PhaseInv, NodeRound.WF;
    TailIsLive(c, s, ph);
    var s' := Write(c, s);
    LinkingCounts(c, s, s'.heap);
    LinkingLinks(s.heap, c.readers, FreedCount(c, s, ph));
    WriterKeepsPhase(c, s, s', ph);
  }

  lemma FirstLinkKeeps(c: Config, s: State, ph: Phase)
    requires Inv(c, s, ph) && s.writer.Linking? && s.tail == None
    ensures Inv(c, Write(c, s), ph)
  {
    if s.commits > 0 {
      Slack(c, s);
    }
    assert s.batches == 0 && |s.heap| == 1;
    FirstLinkCounts(c, s);
    hide TokenInv, WriterInv, LiveInv, PhaseInv, NodeRound.WF;
    WriterKeepsPhase(c, s, Write(c, s), ph);
  }

  lemma StepKeeps(c: Config, s: State, ph: Phase)
    requires Inv(c, s, ph) && s.writer.Stepping?
    ensures Inv(c, Write(c, s), ph)
  {
    hide TokenInv, WriterInv, LinkInv, LiveInv, PhaseInv, NodeRound.WF;
    TailIsLive(c, s, ph);
    SteppingCounts(c, s);
    WriterKeepsPhase(c, s, Write(c, s), ph);
  }

  lemma StartKeeps(c: Config, s: State, ph: Phase)
    requires Inv(c, s, ph) && Enabled(c, s, Start)
    ensures ph.Gathering? && Inv(c, Apply(c, s, Start), ph)
  {
    var s' := Apply(c, s, Start);
    assert s.pcs[0] == AtStart;
    TallyNone(s.pcs, HoldsToken);
    TallyNone(s'.pcs, HoldsToken);
  }

  // ---------------------------------------------------------------- the readers

  /** A reader's control point tells which phase all readers are in. */
  lemma PhaseOf(c: Config, s: State, ph: Phase, t: nat)
    requires Inv(c, s, ph) && t < c.readers
    ensures s.pcs[t].AtStart? || s.pcs[t].SemWait? || s.pcs[t].Token? || s.pcs[t].AtBar1? <==> ph.Gathering?
    ensures MidRound(s.pcs[t]) <==> ph.Processing?
    ensures Reclaiming(s.pcs[t]) <==> ph == Clearing(t)
    ensures s.pcs[t].ToBar3? || s.pcs[t].AtBar3? <==> ph == Cleared || (ph.Clearing? && ph.serial != t)
  {
    if ph.Processing? {
      assert ReaderInv(c, s, t);
    }
  }

  /** Reader `t` moves to control point `pc` without touching the list or the round; the tokens still add up. */
  lemma MoveKeepsList(c: Config, s: State, ph: Phase, t: nat, pc: ReaderPC, sem: nat)
    requires c.readers > 0 && t < |s.pcs| && ListInv(c, s, ph)
    requires sem + (if HoldsToken(pc) then 1 else 0) == s.sem + (if HoldsToken(s.pcs[t]) then 1 else 0)
    requires !Reclaiming(pc) && !Reclaiming(s.pcs[t])
    ensures ListInv(c, s.(pcs := s.pcs[t := pc], sem := sem), ph)
  {
    TallyUpdate(s.pcs, t, pc, HoldsToken);
    hide LinkInv, LiveInv;
    var s' := s.(pcs := s.pcs[t := pc], sem := sem);
    assert FreedCount(c, s', ph) == FreedCount(c, s, ph);
  }

  lemma GatherKeeps(c: Config, s: State, ph: Phase, t: nat)
    requires Inv(c, s, ph) && Enabled(c, s, ReaderStep(t)) && (s.pcs[t].SemWait? || s.pcs[t].Token?)
    ensures ph.Gathering? && Inv(c, Read(c, s, t), ph)
  {
    var s' := Read(c, s, t);
    PhaseOf(c, s, ph, t);
    hide ListInv, NodeRound.WF;
    MoveKeepsList(c, s, ph, t, s'.pcs[t], s'.sem);
  }

  lemma Bar3Keeps(c: Config, s: State, ph: Phase, t: nat)
    requires Inv(c, s, ph) && Enabled(c, s, ReaderStep(t)) && s.pcs[t].ToBar3?
    ensures Inv(c, Read(c, s, t), ph)
  {
    PhaseOf(c, s, ph, t);
    hide ListInv, PhaseInv, NodeRound.WF;
    MoveKeepsList(c, s, ph, t, AtBar3, s.sem);
    Bar3Phase(c, s, ph, t);
  }

  lemma Bar3Phase(c: Config, s: State, ph: Phase, t: nat)
    requires BatchMachine.WF(c, s) && PhaseInv(c, s, ph) && t < c.readers && s.pcs[t].ToBar3?
    requires ph == Cleared || (ph.Clearing? && ph.serial != t)
    ensures BatchMachine.WF(c, s.(pcs := s.pcs[t := AtBar3])) && PhaseInv(c, s.(pcs := s.pcs[t := AtBar3]), ph)
  {
    hide NodeRound.WF;
    if ph.Clearing? {
      hide ClearedInv;
    } else {
      hide ClearInv;
    }
  }

  /** PostBack and ToBar2: the reader moves on outside the node round. */
  lemma BesideRoundKeeps(c: Config, s: State, ph: Phase, t: nat)
    requires Inv(c, s, ph) && Enabled(c, s, ReaderStep(t)) && (s.pcs[t].PostBack? || s.pcs[t].ToBar2?)
    ensures ph.Processing? && Inv(c, Read(c, s, t), ph)
  {
    var s' := Read(c, s, t);
    PhaseOf(c, s, ph, t);
    hide ListInv, NodeRound.WF, RoundInv;
    MoveKeepsList(c, s, ph, t, s'.pcs[t], s'.sem);
    forall u | 0 <= u < c.readers ensures ReaderInv(c, s', u) {
      assert ReaderInv(c, s, u);
    }
  }

  lemma EnterRoundKeeps(c: Config, s: State, ph: Phase, t: nat)
    requires Inv(c, s, ph) && Enabled(c, s, ReaderStep(t)) && s.pcs[t].ToRound?
    ensures ph.Processing? && Inv(c, Read(c, s, t), ph)
  {
    var s' := Read(c, s, t);
    PhaseOf(c, s, ph, t);
    Slack(c, s);
    assert s.head == Some(Base(c, s));
    assert ReaderInv(c, s, t);
    hide ListInv, NodeRound.WF, RoundInv;
    MoveKeepsList(c, s, ph, t, InRound, s.sem);
    assert ListInv(c, s', ph) by { RoundIsNotInList(c, s.(pcs := s'.pcs), s', ph); }
    EnterKeeps(s.heap, s.round, Base(c, s), c.readers, c.callbacks, t);
    forall u | 0 <= u < c.readers ensures ReaderInv(c, s', u) {
      assert ReaderInv(c, s, u);
    }
  }

  lemma RoundIsNotInList(c: Config, s: State, s': State, ph: Phase)
    requires c.readers > 0 && ListInv(c, s, ph) && s' == s.(round := s'.round)
    ensures ListInv(c, s', ph)
  {
    hide LinkInv, LiveInv;
  }

  lemma ProcessKeeps(c: Config, s: State, ph: Phase, t: nat)
    requires Inv(c, s, ph) && Enabled(c, s, ReaderStep(t)) && s.pcs[t].InRound?
    ensures ph.Processing? && Inv(c, Read(c, s, t), ph)
  {
    var s' := Read(c, s, t);
    PhaseOf(c, s, ph, t);
    assert ReaderInv(c, s, t);
    hide ListInv, NodeRound.WF, RoundInv, ReaderInv, Act, Unlock;
    if s.round.stages[t].Executed? {
      UnlockKeeps(s.heap, s.round, Base(c, s), c.readers, c.callbacks, t);
      assert s'.round.fault == Fine by { FineRound(s.heap, s'.round, Base(c, s), c.readers, c.callbacks); }
      MoveKeepsList(c, s, ph, t, ToBar2, s.sem);
      LeaveKeepsReaders(c, s, s', t);
    } else {
      ActKeeps(s.heap, s.round, Base(c, s), c.readers, c.callbacks, s.batches, t);
      ActKeepsReaders(c, s, s', t);
    }
    assert ListInv(c, s', ph) by { RoundIsNotInList(c, s.(pcs := s'.pcs), s', ph); }
  }

  /** A reader that leaves the round has a node of the batch. */
  lemma LeaveKeepsReaders(c: Config, s: State, s': State, t: nat)
    requires BatchMachine.WF(c, s) && BatchMachine.WF(c, s') && t < c.readers && s'.batches == s.batches
    requires forall u :: 0 <= u < c.readers ==> ReaderInv(c, s, u)
    requires s'.pcs == s.pcs[t := ToBar2] && s'.round.stages == s.round.stages[t := Outside] && s'.round.chosen == s.round.chosen
    requires s.round.chosen[t].Some? && Base(c, s) <= s.round.chosen[t].value
    ensures forall u :: 0 <= u < c.readers ==> ReaderInv(c, s', u)
  {
    forall u | 0 <= u < c.readers ensures ReaderInv(c, s', u) {
      assert ReaderInv(c, s, u);
    }
  }

  /** A reader that stays in the round does not change where the others are. */
  lemma ActKeepsReaders(c: Config, s: State, s': State, t: nat)
    requires BatchMachine.WF(c, s) && BatchMachine.WF(c, s') && t < c.readers && s'.batches == s.batches
    requires forall u :: 0 <= u < c.readers ==> ReaderInv(c, s, u)
    requires s.pcs[t].InRound? && s'.pcs == s.pcs && s'.round.stages[t] != Outside
    requires forall u :: 0 <= u < c.readers && u != t ==>
      s'.round.stages[u] == s.round.stages[u] && s'.round.chosen[u] == s.round.chosen[u]
    ensures forall u :: 0 <= u < c.readers ==> ReaderInv(c, s', u)
  {
    forall u | 0 <= u < c.readers ensures ReaderInv(c, s', u) {
      assert ReaderInv(c, s, u);
    }
  }

  lemma FineRound(heap: seq<Node>, r: Round, base: nat, readers: nat, callbacks: nat)
    requires RoundInv(heap, r, base, readers, callbacks)
    ensures r.fault == Fine
  {
  }

  // ---------------------------------------------------------------- freeing the batch

  /** The serial reader moves on; `heap'` is the list with one more node freed, or unchanged. */
  lemma ReclaimKeepsList(c: Config, s: State, s': State, ph: Phase, t: nat)
    requires c.readers > 0 && t < |s.pcs| == |s'.pcs| && ph == Clearing(t) && Reclaiming(s.pcs[t]) && Reclaiming(s'.pcs[t])
    requires s'.pcs == s.pcs[t := s'.pcs[t]] && s' == s.(pcs := s'.pcs, heap := s'.heap)
    requires ListInv(c, s, ph) && LiveInv(s'.heap, FreedCount(c, s', ph))
    requires |s'.heap| == |s.heap| && forall k :: 0 <= k < |s.heap| ==> s'.heap[k] == s.heap[k].(live := s'.heap[k].live)
    ensures ListInv(c, s', ph)
  {
    TallyUpdate(s.pcs, t, s'.pcs[t], HoldsToken);
    hide LiveInv;
  }

  /** The node the serial reader is at is linked and not freed, and so is the first node of the next batch. */
  lemma BatchIsThere(c: Config, s: State, t: nat, i: nat)
    requires Inv(c, s, Clearing(t)) && i < c.readers
    ensures var k := Base(c, s) + i;
      k + 1 < |s.heap| && s.heap[k].next == Some(k + 1) && (FreedCount(c, s, Clearing(t)) <= k ==> s.heap[k].live)
  {
    Slack(c, s);
  }

  lemma LoadHeadKeeps(c: Config, s: State, ph: Phase, t: nat)
    requires Inv(c, s, ph) && Enabled(c, s, ReaderStep(t)) && s.pcs[t].LoadHead?
    ensures ph == Clearing(t) && Inv(c, Read(c, s, t), ph)
  {
    PhaseOf(c, s, ph, t);
    HeadIsBase(c, s, ph);
    hide ListInv, NodeRound.WF;
    var s' := Read(c, s, t);
    assert LiveInv(s'.heap, FreedCount(c, s', ph)) by { LiveOf(c, s, ph); }
    ReclaimKeepsList(c, s, s', ph, t);
  }

  lemma HeadIsBase(c: Config, s: State, ph: Phase)
    requires Inv(c, s, ph) && s.commits > 0
    ensures s.head == Some(Base(c, s))
  {
    hide PhaseInv, LinkInv, LiveInv;
    Slack(c, s);
  }

  lemma LiveOf(c: Config, s: State, ph: Phase)
    requires c.readers > 0 && ListInv(c, s, ph)
    ensures LiveInv(s.heap, FreedCount(c, s, ph))
  {
  }

  lemma FreeReadKeeps(c: Config, s: State, ph: Phase, t: nat)
    requires Inv(c, s, ph) && Enabled(c, s, ReaderStep(t)) && s.pcs[t].FreeRead?
    ensures ph == Clearing(t) && Inv(c, Read(c, s, t), ph)
  {
    hide TokenInv, WriterInv, LinkInv, LiveInv, NodeRound.WF;
    PhaseOf(c, s, ph, t);
    BatchIsThere(c, s, t, s.pcs[t].i);
    ReclaimKeepsList(c, s, Read(c, s, t), ph, t);
  }

  lemma FreeNodeKeeps(c: Config, s: State, ph: Phase, t: nat)
    requires Inv(c, s, ph) && Enabled(c, s, ReaderStep(t)) && s.pcs[t].FreeNode?
    ensures ph == Clearing(t) && Inv(c, Read(c, s, t), ph)
  {
    hide TokenInv, WriterInv, LinkInv, NodeRound.WF;
    PhaseOf(c, s, ph, t);
    BatchIsThere(c, s, t, s.pcs[t].i);
    ReclaimKeepsList(c, s, Read(c, s, t), ph, t);
  }

  lemma PutHeadKeeps(c: Config, s: State, ph: Phase, t: nat)
    requires Inv(c, s, ph) && Enabled(c, s, ReaderStep(t)) && s.pcs[t].PutHead?
    ensures ph == Clearing(t) && Inv(c, Read(c, s, t), Cleared)
  {
    PhaseOf(c, s, ph, t);
    PutHeadList(c, s, t);
    PutHeadPhase(c, s, t);
    hide ListInv, PhaseInv, NodeRound.WF;
  }

  lemma PutHeadList(c: Config, s: State, t: nat)
    requires Inv(c, s, Clearing(t)) && s.pcs[t].PutHead?
    ensures ListInv(c, s.(head := s.pcs[t].cur, batches := s.batches + 1, pcs := s.pcs[t := ToBar3]), Cleared)
  {
    Slack(c, s);
    TallyUpdate(s.pcs, t, ToBar3, HoldsToken);
    hide LinkInv, LiveInv, NodeRound.WF;
    assert FreedCount(c, s.(head := s.pcs[t].cur, batches := s.batches + 1, pcs := s.pcs[t := ToBar3]), Cleared)
      == FreedCount(c, s, Clearing(t));
  }

  lemma PutHeadPhase(c: Config, s: State, t: nat)
    requires Inv(c, s, Clearing(t)) && s.pcs[t].PutHead?
    ensures
      var s' := s.(head := s.pcs[t].cur, batches := s.batches + 1, pcs := s.pcs[t := ToBar3]);
      BatchMachine.WF(c, s') && PhaseInv(c, s', Cleared)
  {
    hide ListInv, NodeRound.WF;
  }

  // ---------------------------------------------------------------- the barrier

  /** All readers blocked on the barrier wait at the same one of its three points. */
  lemma SameWaitPoint(c: Config, s: State, ph: Phase)
    requires Inv(c, s, ph) && forall t :: 0 <= t < c.readers ==> Blocked(s.pcs[t])
    ensures (ph.Gathering? && forall t :: 0 <= t < c.readers ==> s.pcs[t] == AtBar1)
      || (ph.Processing? && forall t :: 0 <= t < c.readers ==> s.pcs[t] == AtBar2)
      || (ph.Cleared? && forall t :: 0 <= t < c.readers ==> s.pcs[t] == AtBar3)
  {
    forall t | 0 <= t < c.readers
      ensures match ph
              case Gathering => s.pcs[t] == AtBar1
              case Processing => s.pcs[t] == AtBar2
              case Clearing(z) => t != z
              case Cleared => s.pcs[t] == AtBar3
    {
      PhaseOf(c, s, ph, t);
    }
    PhaseOf(c, s, ph, 0);
  }

  /** A list whose tokens change only by `readers` becoming `readers - 1` held tokens and one commit. */
  lemma OpenKeepsList(c: Config, s: State, s': State, ph: Phase, ph': Phase)
    requires c.readers > 0 && ListInv(c, s, ph) && s' == s.(pcs := s'.pcs, commits := s'.commits)
    requires Tally(s'.pcs, HoldsToken) + s'.commits == Tally(s.pcs, HoldsToken) + s.commits
    requires s'.commits > 0 ==> s.posts >= s'.commits - 1 + c.readers
    requires FreedCount(c, s', ph') == FreedCount(c, s, ph)
    ensures ListInv(c, s', ph')
  {
    hide LinkInv, LiveInv;
  }

  lemma OpenGatherKeeps(c: Config, s: State, serial: nat)
    requires Inv(c, s, Gathering) && Enabled(c, s, Open(serial))
    requires forall t :: 0 <= t < c.readers ==> s.pcs[t] == AtBar1
    ensures Inv(c, OpenBarrier(c, s, serial), Processing)
  {
    var s' := OpenBarrier(c, s, serial);
    TallyAll(s.pcs, HoldsToken);
    TallyAllBut(s'.pcs, serial, HoldsToken);
    assert s.pcs[0] == AtBar1;
    assert s.posts >= s.commits + c.readers;
    OpenKeepsList(c, s, s', Gathering, Processing);
    BatchReady(c, s', Processing);
    QuietIsRound(s.heap, s.round, Base(c, s), c.readers, c.callbacks);
    hide ListInv, NodeRound.WF;
    forall t | 0 <= t < c.readers ensures ReaderInv(c, s', t) {
    }
  }

  lemma QuietIsRound(heap: seq<Node>, r: Round, base: nat, readers: nat, callbacks: nat)
    requires NodeRound.WF(r, readers, callbacks) && Quiet(r) && ChosenBefore(r.chosen, base) && Batch(heap, base, readers)
    ensures RoundInv(heap, r, base, readers, callbacks)
  {
  }

  lemma RoundIsQuiet(heap: seq<Node>, r: Round, base: nat, readers: nat, callbacks: nat)
    requires RoundInv(heap, r, base, readers, callbacks)
    requires forall t :: 0 <= t < readers ==> r.stages[t] == Outside
    ensures Quiet(r)
  {
  }

  lemma OpenProcessKeeps(c: Config, s: State, serial: nat)
    requires Inv(c, s, Processing) && Enabled(c, s, Open(serial))
    requires forall t :: 0 <= t < c.readers ==> s.pcs[t] == AtBar2
    ensures Inv(c, OpenBarrier(c, s, serial), Clearing(serial))
  {
    var s' := OpenBarrier(c, s, serial);
    TallyNone(s.pcs, HoldsToken);
    TallyNone(s'.pcs, HoldsToken);
    OpenKeepsList(c, s, s', Processing, Clearing(serial));
    forall t | 0 <= t < c.readers
      ensures s.round.stages[t] == Outside && s.round.chosen[t].Some? && Base(c, s) <= s.round.chosen[t].value
    {
      assert ReaderInv(c, s, t);
    }
    RoundIsQuiet(s.heap, s.round, Base(c, s), c.readers, c.callbacks);
    hide ListInv, NodeRound.WF;
  }

  lemma OpenClearedKeeps(c: Config, s: State, serial: nat)
    requires Inv(c, s, Cleared) && Enabled(c, s, Open(serial))
    requires forall t :: 0 <= t < c.readers ==> s.pcs[t] == AtBar3
    ensures Inv(c, OpenBarrier(c, s, serial), Gathering)
  {
    var s' := OpenBarrier(c, s, serial);
    TallyNone(s.pcs, HoldsToken);
    TallyNone(s'.pcs, HoldsToken);
    OpenKeepsList(c, s, s', Cleared, Gathering);
    hide ListInv, NodeRound.WF;
  }

  // ---------------------------------------------------------------- every step

  /** The phase after a step. */
  ghost function Next(s: State, l: Label, ph: Phase): Phase {
    match l
    case Open(serial) => if ph.Gathering? then Processing else if ph.Processing? then Clearing(serial) else Gathering
    case ReaderStep(t) => if t < |s.pcs| && s.pcs[t].PutHead? then Cleared else ph
    case _ => ph
  }

  lemma OpenKeeps(c: Config, s: State, ph: Phase, serial: nat)
    requires Inv(c, s, ph) && Enabled(c, s, Open(serial))
    ensures Inv(c, OpenBarrier(c, s, serial), Next(s, Open(serial), ph))
  {
    SameWaitPoint(c, s, ph);
    hide Inv, OpenBarrier;
    match ph {
      case Gathering => OpenGatherKeeps(c, s, serial);
      case Processing => OpenProcessKeeps(c, s, serial);
      case _ => OpenClearedKeeps(c, s, serial);
    }
  }

  lemma ReadKeeps(c: Config, s: State, ph: Phase, t: nat)
    requires Inv(c, s, ph) && Enabled(c, s, ReaderStep(t))
    ensures Inv(c, Read(c, s, t), Next(s, ReaderStep(t), ph))
  {
    hide ListInv, PhaseInv, Read, NodeRound.WF;
    match s.pcs[t] {
      case SemWait => GatherKeeps(c, s, ph, t);
      case Token => GatherKeeps(c, s, ph, t);
      case PostBack => BesideRoundKeeps(c, s, ph, t);
      case ToRound => EnterRoundKeeps(c, s, ph, t);
      case InRound => ProcessKeeps(c, s, ph, t);
      case ToBar2 => BesideRoundKeeps(c, s, ph, t);
      case LoadHead => LoadHeadKeeps(c, s, ph, t);
      case FreeRead(_, _) => FreeReadKeeps(c, s, ph, t);
      case FreeNode(_, _, _) => FreeNodeKeeps(c, s, ph, t);
      case PutHead(_) => PutHeadKeeps(c, s, ph, t);
      case ToBar3 => Bar3Keeps(c, s, ph, t);
      case _ =>
    }
  }

  lemma ApplyKeeps(c: Config, s: State, ph: Phase, l: Label)
    requires Inv(c, s, ph) && Enabled(c, s, l)
    ensures Inv(c, Apply(c, s, l), Next(s, l, ph))
  {
    match l {
      case Produce(datum) => ProduceKeeps(c, s, ph, datum);
      case WriterStep =>
        hide Write;
        match s.writer {
          case Fresh => PostKeeps(c, s, ph);
          case Tagging => TagKeeps(c, s, ph);
          case Linking => if s.tail.Some? { LinkKeeps(c, s, ph); } else { FirstLinkKeeps(c, s, ph); }
          case _ => StepKeeps(c, s, ph);
        }
      case WriterReady => IdleKeeps(c, s, ph, AtStartBarrier);
      case Start => StartKeeps(c, s, ph);
      case Stop => IdleKeeps(c, s, ph, Stopped);
      case ReaderStep(t) => ReadKeeps(c, s, ph, t);
      case Open(serial) => OpenKeeps(c, s, ph, serial);
    }
  }

  lemma IdleKeeps(c: Config, s: State, ph: Phase, pc: WriterPC)
    requires Inv(c, s, ph) && s.writer.Idle?
    requires pc == if s.started then Stopped else AtStartBarrier
    ensures Inv(c, s.(writer := pc), ph)
  {
    WriterKeepsPhase(c, s, s.(writer := pc), ph);
  }
}
