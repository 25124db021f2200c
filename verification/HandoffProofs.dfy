/** Every step of the hand-off protocol keeps the invariant. */
module HandoffProofs {
  import opened Basics
  import opened Heap
  import opened HandoffMachine
  import opened HandoffInvariant

  // ---------------------------------------------------------------- readers that hold nothing

  /** The reader holds no mutex, no datum and no count. */
  predicate HoldsNothing(pc: PC) {
    pc.AtStart? || pc.TryRead? || pc.AtBarrier? || pc.Measure? || pc.Exited?
  }

  ghost predicate NobodyHolds(pcs: seq<PC>) {
    forall t :: 0 <= t < |pcs| ==> HoldsNothing(pcs[t])
  }

  lemma NobodyCarries(heap: seq<Node>, pcs: seq<PC>, pcs': seq<PC>, log: seq<Processed>, removed: nat)
    requires CarryInv(heap, pcs, log, removed) && NobodyHolds(pcs) && NobodyHolds(pcs')
    ensures CarryInv(heap, pcs', log, removed)
  {
    forall k: nat | k < removed ensures Logged(log, k) {
      assert Logged(log, k) || CarriedBySome(pcs, k);
    }
  }

  lemma NobodyCounts(pcs: seq<PC>, pcs': seq<PC>, count: nat, log: seq<Processed>)
    requires CountInv(pcs, count, log) && NobodyHolds(pcs) && NobodyHolds(pcs')
    ensures CountInv(pcs', count, log)
  {
    TallyNone(pcs, Counting);
    TallyNone(pcs', Counting);
  }

  lemma NobodyLocks(pcs: seq<PC>, pcs': seq<PC>, listLock: Option<nat>, callLock: Option<nat>)
    requires LockInv(pcs, listLock, callLock) && NobodyHolds(pcs) && NobodyHolds(pcs')
    ensures LockInv(pcs', listLock, callLock)
  {
    assert listLock == None && callLock == None;
  }

  lemma NobodyReads(heap: seq<Node>, pcs: seq<PC>, pcs': seq<PC>, removed: nat)
    requires LiveInv(heap, pcs, removed) && NobodyHolds(pcs')
    ensures LiveInv(heap, pcs', removed) && CopyInv(heap, pcs', removed)
  {
  }

  /** Readers that hold nothing can move anywhere outside the protected parts. */
  lemma AllOutside(s: State, s': State)
    requires DataInv(s) && NobodyHolds(s.pcs) && NobodyHolds(s'.pcs)
    requires s'.heap == s.heap && s'.log == s.log && s'.removed == s.removed && s'.count == s.count
    requires s'.listLock == s.listLock && s'.callLock == s.callLock
    ensures DataInv(s')
  {
    hide CarryInv, LogInv, LiveInv, CountInv, LockInv, CopyInv, NobodyHolds;
    NobodyCarries(s.heap, s.pcs, s'.pcs, s.log, s.removed);
    NobodyCounts(s.pcs, s'.pcs, s.count, s.log);
    NobodyLocks(s.pcs, s'.pcs, s.listLock, s.callLock);
    NobodyReads(s.heap, s.pcs, s'.pcs, s.removed);
  }

  // ---------------------------------------------------------------- the writer

  /** The data facts do not look at links, and the writer neither frees nor changes data. */
  lemma WriterKeepsData(s: State, s': State)
    requires DataInv(s)
    requires s'.pcs == s.pcs && s'.log == s.log && s'.removed == s.removed && s'.count == s.count
    requires s'.listLock == s.listLock && s'.callLock == s.callLock && |s.heap| <= |s'.heap|
    requires forall k :: 0 <= k < |s.heap| ==> s'.heap[k].datum == s.heap[k].datum && s'.heap[k].live == s.heap[k].live
    requires forall k :: |s.heap| <= k < |s'.heap| ==> s'.heap[k].live
    ensures DataInv(s')
  {
    hide LockInv, CountInv;
  }

  /** The phase does not depend on the list while readers share it. */
  lemma WriterKeepsPhase(c: Config, s: State, s': State)
    requires SharingInv(c, s)
    requires s'.pcs == s.pcs && s'.removed == s.removed && s'.started == s.started
    requires s'.sem == s.sem + (s'.posts - s.posts) && s.posts <= s'.posts
    requires s.writer.Stopped? ==> s'.writer.Stopped?
    ensures SharingInv(c, s')
  {
  }

  lemma OnlySharing(c: Config, s: State, ph: Phase)
    requires Inv(c, s, ph) && !s.writer.Stopped?
    ensures ph == Sharing
  {
  }

  /** A new node is not linked yet. */
  lemma ProduceList(c: Config, s: State, datum: SensorData)
    requires c.sticky && HandoffMachine.WF(c, s) && WriterInv(c, s) && LinkInv(s.heap, Linked(s)) && Enabled(c, s, Produce(datum))
    ensures
      var s' := Apply(c, s, Produce(datum));
      WriterInv(c, s') && LinkInv(s'.heap, Linked(s'))
  {
  }

  lemma ProduceKeeps(c: Config, s: State, ph: Phase, datum: SensorData)
    requires Inv(c, s, ph) && Enabled(c, s, Produce(datum))
    ensures Inv(c, Apply(c, s, Produce(datum)), ph)
  {
    var s' := Apply(c, s, Produce(datum));
    OnlySharing(c, s, ph);
    ProduceList(c, s, datum);
    hide DataInv, SharingInv, WriterInv, LinkInv;
    WriterKeepsData(s, s');
    WriterKeepsPhase(c, s, s');
  }

  lemma FirstLinkKeeps(c: Config, s: State, ph: Phase)
    requires Inv(c, s, ph) && s.writer.Linking? && s.tail == None
    ensures Inv(c, Write(c, s), ph)
  {
    var s' := Write(c, s);
    OnlySharing(c, s, ph);
    SharingSlack(c, s);
    hide DataInv, SharingInv;
    WriterKeepsData(s, s');
    WriterKeepsPhase(c, s, s');
  }

  lemma LinkKeeps(c: Config, s: State, ph: Phase)
    requires Inv(c, s, ph) && s.writer.Linking? && s.tail.Some?
    ensures Inv(c, Write(c, s), ph)
  {
    var s' := Write(c, s);
    TailIsLive(c, s, ph);
    hide DataInv, SharingInv;
    WriterKeepsData(s, s');
    WriterKeepsPhase(c, s, s');
  }

  lemma StepKeeps(c: Config, s: State, ph: Phase)
    requires Inv(c, s, ph) && s.writer.Stepping?
    ensures Inv(c, Write(c, s), ph)
  {
    var s' := Write(c, s);
    TailIsLive(c, s, ph);
    hide DataInv, SharingInv;
    WriterKeepsData(s, s');
    WriterKeepsPhase(c, s, s');
  }

  lemma PostKeeps(c: Config, s: State, ph: Phase)
    requires Inv(c, s, ph) && s.writer.Posting?
    ensures Inv(c, Write(c, s), ph)
  {
    var s' := Write(c, s);
    OnlySharing(c, s, ph);
    hide DataInv, SharingInv, LinkInv;
    WriterKeepsData(s, s');
    WriterKeepsPhase(c, s, s');
  }

  lemma ReadyKeeps(c: Config, s: State, ph: Phase)
    requires Inv(c, s, ph) && Enabled(c, s, WriterReady)
    ensures Inv(c, Apply(c, s, WriterReady), ph)
  {
    var s' := Apply(c, s, WriterReady);
    OnlySharing(c, s, ph);
    hide DataInv, SharingInv;
    WriterKeepsData(s, s');
    WriterKeepsPhase(c, s, s');
  }

  lemma StopKeeps(c: Config, s: State, ph: Phase)
    requires Inv(c, s, ph) && Enabled(c, s, Stop)
    ensures Inv(c, Apply(c, s, Stop), ph)
  {
    var s' := Apply(c, s, Stop);
    OnlySharing(c, s, ph);
    hide DataInv, SharingInv;
    WriterKeepsData(s, s');
    WriterKeepsPhase(c, s, s');
  }

  lemma StartKeeps(c: Config, s: State, ph: Phase)
    requires Inv(c, s, ph) && Enabled(c, s, Start)
    ensures Inv(c, Apply(c, s, Start), ph)
  {
    var s' := Apply(c, s, Start);
    OnlySharing(c, s, ph);
    StartPhase(c, s, s');
    hide DataInv, LinkInv, PhaseInv;
    AllOutside(s, s');
  }

  lemma StartPhase(c: Config, s: State, s': State)
    requires SharingInv(c, s) && forall t :: 0 <= t < |s.pcs| ==> s.pcs[t] == AtStart
    requires s' == s.(started := true, writer := HandoffMachine.WriterPC.Idle, pcs := s'.pcs)
    requires forall t :: 0 <= t < |s'.pcs| ==> s'.pcs[t] == TryRead
    ensures SharingInv(c, s')
  {
    TallyNone(s.pcs, InFlight);
    TallyNone(s'.pcs, InFlight);
  }

  // ---------------------------------------------------------------- one reader, the data facts

  lemma CarrySame(heap: seq<Node>, pcs: seq<PC>, t: nat, pc: PC, log: seq<Processed>, removed: nat)
    requires CarryInv(heap, pcs, log, removed) && t < |pcs|
    requires Carried(pc) == Carried(pcs[t]) && (Carried(pc).Some? ==> pc.datum == pcs[t].datum)
    ensures CarryInv(heap, pcs[t := pc], log, removed)
  {
    forall k: nat | k < removed ensures Logged(log, k) || CarriedBySome(pcs[t := pc], k) {
      if !Logged(log, k) {
        var u :| 0 <= u < |pcs| && Carried(pcs[u]) == Some(k);
        assert Carried(pcs[t := pc][u]) == Some(k);
      }
    }
  }

  lemma LiveSame(heap: seq<Node>, pcs: seq<PC>, t: nat, pc: PC, removed: nat)
    requires LiveInv(heap, pcs, removed) && t < |pcs| && (Unfreed(pc) ==> Unfreed(pcs[t]) && pc.node == pcs[t].node)
    ensures LiveInv(heap, pcs[t := pc], removed)
  {
  }

  lemma CopySame(heap: seq<Node>, pcs: seq<PC>, t: nat, pc: PC, removed: nat)
    requires CopyInv(heap, pcs, removed) && t < |pcs|
    requires pc.Advance? ==> removed < |heap| && pc.datum == heap[removed].datum
    ensures CopyInv(heap, pcs[t := pc], removed)
  {
  }

  lemma CountSame(pcs: seq<PC>, t: nat, pc: PC, count: nat, log: seq<Processed>)
    requires CountInv(pcs, count, log) && t < |pcs| && Counting(pc) == Counting(pcs[t]) && (pc.CountStore? ==> pc.seen == count)
    ensures CountInv(pcs[t := pc], count, log)
  {
    TallyUpdate(pcs, t, pc, Counting);
  }

  /** Taking and dropping the two mutexes as a reader moves on. */
  lemma LockMove(pcs: seq<PC>, t: nat, pc: PC, listLock: Option<nat>, callLock: Option<nat>)
    requires LockInv(pcs, listLock, callLock) && t < |pcs|
    requires InList(pc) && !InList(pcs[t]) ==> listLock == None
    requires InCall(pc) && !InCall(pcs[t]) ==> callLock == None
    ensures LockInv(pcs[t := pc],
                    if InList(pc) then Some(t) else if InList(pcs[t]) then None else listLock,
                    if InCall(pc) then Some(t) else if InCall(pcs[t]) then None else callLock)
  {
    assert InList(pcs[t]) <==> listLock == Some(t);
    assert InCall(pcs[t]) <==> callLock == Some(t);
  }

  /** Any move that keeps the carried datum and the counting. */
  lemma MoveData(s: State, s': State, t: nat, pc: PC)
    requires DataInv(s) && t < |s.pcs| && s' == s.(pcs := s.pcs[t := pc], sem := s'.sem, listLock := s'.listLock, callLock := s'.callLock)
    requires Carried(pc) == Carried(s.pcs[t]) && (Carried(pc).Some? ==> pc.datum == s.pcs[t].datum)
    requires Unfreed(pc) ==> Unfreed(s.pcs[t])
    requires Counting(pc) == Counting(s.pcs[t]) && (pc.CountStore? ==> pc.seen == s.count)
    requires pc.Advance? ==> s.removed < |s.heap| && pc.datum == s.heap[s.removed].datum
    requires InList(pc) && !InList(s.pcs[t]) ==> s.listLock == None
    requires InCall(pc) && !InCall(s.pcs[t]) ==> s.callLock == None
    requires s'.listLock == (if InList(pc) then Some(t) else if InList(s.pcs[t]) then None else s.listLock)
    requires s'.callLock == (if InCall(pc) then Some(t) else if InCall(s.pcs[t]) then None else s.callLock)
    ensures DataInv(s')
  {
    hide CarryInv, LogInv, LiveInv, CountInv, LockInv, CopyInv;
    CarrySame(s.heap, s.pcs, t, pc, s.log, s.removed);
    LiveSame(s.heap, s.pcs, t, pc, s.removed);
    CountSame(s.pcs, t, pc, s.count, s.log);
    CopySame(s.heap, s.pcs, t, pc, s.removed);
    LockMove(s.pcs, t, pc, s.listLock, s.callLock);
  }

  /** Moving `head` hands node `removed` to reader `t`. */
  lemma AdvanceCarry(heap: seq<Node>, pcs: seq<PC>, t: nat, pc: PC, log: seq<Processed>, removed: nat)
    requires CarryInv(heap, pcs, log, removed) && LogInv(heap, log, removed) && t < |pcs| && removed < |heap|
    requires Carried(pcs[t]) == None && Carried(pc) == Some(removed) && pc.datum == heap[removed].datum
    ensures CarryInv(heap, pcs[t := pc], log, removed + 1)
  {
    var pcs' := pcs[t := pc];
    assert Carried(pcs'[t]) == Some(removed);
    forall k: nat | k < removed + 1 ensures Logged(log, k) || CarriedBySome(pcs', k) {
      if k < removed && !Logged(log, k) {
        var u :| 0 <= u < |pcs| && Carried(pcs[u]) == Some(k);
        assert Carried(pcs'[u]) == Some(k);
      }
    }
  }

  lemma AdvanceRest(heap: seq<Node>, pcs: seq<PC>, t: nat, pc: PC, removed: nat, listLock: Option<nat>, callLock: Option<nat>)
    requires LiveInv(heap, pcs, removed) && LockInv(pcs, listLock, callLock) && t < |pcs| && removed < |heap|
    requires pcs[t].Advance? && pc.UnlockList? && pc.node == removed
    ensures LiveInv(heap, pcs[t := pc], removed + 1) && CopyInv(heap, pcs[t := pc], removed + 1)
  {
    assert InList(pcs[t]) <==> listLock == Some(t);
    forall u | 0 <= u < |pcs| && u != t ensures !pcs[u].Advance? {
      assert InList(pcs[u]) <==> listLock == Some(u);
    }
  }

  lemma AdvanceData(s: State, s': State, t: nat)
    requires DataInv(s) && t < |s.pcs| && s.pcs[t].Advance? && s.removed < |s.heap|
    requires s' == s.(pcs := s.pcs[t := UnlockList(s.pcs[t].drain, s.removed, s.pcs[t].datum)], head := s'.head, removed := s.removed + 1)
    ensures DataInv(s')
  {
    var pc := UnlockList(s.pcs[t].drain, s.removed, s.pcs[t].datum);
    assert s.pcs[t].datum == s.heap[s.removed].datum;
    assert s.listLock == Some(t) by { assert InList(s.pcs[t]); }
    assert LogInv(s.heap, s.log, s.removed + 1);
    hide CarryInv, LogInv, LiveInv, CountInv, LockInv, CopyInv;
    AdvanceCarry(s.heap, s.pcs, t, pc, s.log, s.removed);
    AdvanceRest(s.heap, s.pcs, t, pc, s.removed, s.listLock, s.callLock);
    CountSame(s.pcs, t, pc, s.count, s.log);
    LockMove(s.pcs, t, pc, s.listLock, s.callLock);
  }

  /** Only one reader is on its way to free a given node. */
  lemma FreeLive(heap: seq<Node>, heap': seq<Node>, pcs: seq<PC>, t: nat, pc: PC, log: seq<Processed>, removed: nat)
    requires LiveInv(heap, pcs, removed) && CarryInv(heap, pcs, log, removed) && t < |pcs|
    requires pcs[t].FreeNode? && pcs[t].node < |heap| && !Unfreed(pc)
    requires heap' == heap[pcs[t].node := heap[pcs[t].node].(live := false)]
    ensures LiveInv(heap', pcs[t := pc], removed)
  {
    var pcs' := pcs[t := pc];
    forall u | 0 <= u < |pcs'| && Unfreed(pcs'[u]) ensures pcs'[u].node < |heap'| && heap'[pcs'[u].node].live {
      assert Carried(pcs[t]) != Carried(pcs[u]);
    }
  }

  lemma DatumsOnly(heap: seq<Node>, heap': seq<Node>, pcs: seq<PC>, log: seq<Processed>, removed: nat)
    requires CarryInv(heap, pcs, log, removed) && LogInv(heap, log, removed) && CopyInv(heap, pcs, removed)
    requires |heap'| == |heap| && forall k :: 0 <= k < |heap| ==> heap'[k].datum == heap[k].datum
    ensures CarryInv(heap', pcs, log, removed) && LogInv(heap', log, removed) && CopyInv(heap', pcs, removed)
  {
  }

  lemma FreeData(s: State, s': State, t: nat)
    requires DataInv(s) && t < |s.pcs| && s.pcs[t].FreeNode? && s.pcs[t].node < |s.heap|
    requires var pc := s.pcs[t];
      s' == s.(pcs := s.pcs[t := if pc.drain then Invoke(true, pc.node, pc.datum) else LockCall(pc.node, pc.datum)],
               heap := s.heap[pc.node := s.heap[pc.node].(live := false)])
    ensures DataInv(s')
  {
    var pc := s'.pcs[t];
    hide CarryInv, LogInv, LiveInv, CountInv, LockInv, CopyInv;
    FreeLive(s.heap, s'.heap, s.pcs, t, pc, s.log, s.removed);
    CarrySame(s.heap, s.pcs, t, pc, s.log, s.removed);
    CopySame(s.heap, s.pcs, t, pc, s.removed);
    DatumsOnly(s.heap, s'.heap, s'.pcs, s.log, s.removed);
    CountSame(s.pcs, t, pc, s.count, s.log);
    LockMove(s.pcs, t, pc, s.listLock, s.callLock);
  }

  lemma LoggedAppend(log: seq<Processed>, e: Processed, k: nat)
    ensures Logged(log + [e], k) <==> Logged(log, k) || k == e.node
  {
    var log' := log + [e];
    assert log'[|log|] == e;
    if Logged(log, k) {
      var i :| 0 <= i < |log| && log[i].node == k;
      assert log'[i] == log[i];
    }
  }

  /** The callback runs on the datum in hand, which goes from carried to processed. */
  lemma InvokeCarry(heap: seq<Node>, pcs: seq<PC>, t: nat, pc: PC, log: seq<Processed>, removed: nat)
    requires CarryInv(heap, pcs, log, removed) && LogInv(heap, log, removed) && t < |pcs| && pcs[t].Invoke?
    requires Carried(pc) == None
    ensures var log' := log + [Processed(pcs[t].node, pcs[t].datum)];
      CarryInv(heap, pcs[t := pc], log', removed) && LogInv(heap, log', removed)
  {
    var e := Processed(pcs[t].node, pcs[t].datum);
    var pcs', log' := pcs[t := pc], log + [e];
    forall k: nat ensures Logged(log', k) <==> Logged(log, k) || k == e.node {
      LoggedAppend(log, e, k);
    }
    forall k: nat | k < removed ensures Logged(log', k) || CarriedBySome(pcs', k) {
      if !Logged(log', k) {
        var u :| 0 <= u < |pcs| && Carried(pcs[u]) == Some(k);
        assert Carried(pcs'[u]) == Some(k);
      }
    }
    forall i | 0 <= i < |log| ensures log[i].node != e.node {
      assert !Logged(log, e.node);
    }
  }

  lemma InvokeData(s: State, s': State, t: nat)
    requires DataInv(s) && t < |s.pcs| && s.pcs[t].Invoke?
    requires s' == s.(pcs := s.pcs[t := CountLoad(s.pcs[t].drain)], log := s.log + [Processed(s.pcs[t].node, s.pcs[t].datum)])
    ensures DataInv(s')
  {
    var pc := s'.pcs[t];
    TallyUpdate(s.pcs, t, pc, Counting);
    hide CarryInv, LogInv, LiveInv, LockInv, CopyInv;
    InvokeCarry(s.heap, s.pcs, t, pc, s.log, s.removed);
    LiveSame(s.heap, s.pcs, t, pc, s.removed);
    CopySame(s.heap, s.pcs, t, pc, s.removed);
    LockMove(s.pcs, t, pc, s.listLock, s.callLock);
  }

  /** The store publishes the loaded value plus one; nobody else is between its load and its store. */
  lemma StoreData(s: State, s': State, t: nat)
    requires DataInv(s) && t < |s.pcs| && s.pcs[t].CountStore?
    requires s' == s.(pcs := s.pcs[t := if s.pcs[t].drain then Measure else UnlockCall], count := s.pcs[t].seen + 1)
    requires forall u :: 0 <= u < |s.pcs| && u != t ==> !Counting(s.pcs[u])
    ensures DataInv(s')
  {
    var pc := s'.pcs[t];
    TallyUpdate(s.pcs, t, pc, Counting);
    hide CarryInv, LogInv, LiveInv, LockInv, CopyInv;
    CarrySame(s.heap, s.pcs, t, pc, s.log, s.removed);
    LiveSame(s.heap, s.pcs, t, pc, s.removed);
    CopySame(s.heap, s.pcs, t, pc, s.removed);
    LockMove(s.pcs, t, pc, s.listLock, s.callLock);
  }

  // ---------------------------------------------------------------- one reader, the phase

  lemma ReaderPhase(c: Config, s: State, ph: Phase, t: nat)
    requires Inv(c, s, ph) && Enabled(c, s, ReaderStep(t))
    ensures s.started
    ensures ph == Sharing || ph == Draining(t)
    ensures ph.Draining? <==> Drains(s.pcs[t])
    ensures ph.Sharing? ==> SharingInv(c, s)
    ensures ph.Draining? ==> DrainInv(s, t)
  {
  }

  /** A reader that is about to remove a node finds one. */
  lemma HeadIsThere(c: Config, s: State, ph: Phase, t: nat)
    requires Inv(c, s, ph) && Enabled(c, s, ReaderStep(t)) && InFlight(s.pcs[t])
    ensures s.removed < Linked(s) && s.head == Some(s.removed) && Check(s.heap, s.head) == Fine
    ensures s.heap[s.removed].next == if s.removed + 1 < Linked(s) then Some(s.removed + 1) else None
  {
    ReaderPhase(c, s, ph, t);
    if ph.Sharing? {
      TallyUpdate(s.pcs, t, TryRead, InFlight);
      SharingSlack(c, s);
    }
  }

  lemma AloneInCount(c: Config, s: State, ph: Phase, t: nat)
    requires Inv(c, s, ph) && Enabled(c, s, ReaderStep(t)) && Counting(s.pcs[t])
    ensures forall u :: 0 <= u < |s.pcs| && u != t ==> !Counting(s.pcs[u])
  {
    ReaderPhase(c, s, ph, t);
    forall u | 0 <= u < |s.pcs| && u != t ensures !Counting(s.pcs[u]) {
      if ph.Sharing? {
        assert InCall(s.pcs[t]) <==> s.callLock == Some(t);
        assert InCall(s.pcs[u]) <==> s.callLock == Some(u);
      }
    }
  }

  /** A reader's move within its phase. */
  lemma PhaseMove(c: Config, s: State, s': State, ph: Phase, t: nat, pc: PC)
    requires PhaseInv(c, s, ph) && t < |s.pcs| && (ph == Sharing || ph == Draining(t)) && s.started
    requires s'.pcs == s.pcs[t := pc] && s'.started && s'.writer == s.writer && s'.posts == s.posts && |s'.heap| == |s.heap|
    requires Drains(pc) == Drains(s.pcs[t]) && !pc.Exited? && !pc.AtStart?
    requires pc.DropLock? || pc.ToBarrier? || pc.AtBarrier? ==> s.writer.Stopped?
    requires ph.Sharing? ==>
      s'.sem + s'.removed + (if InFlight(pc) then 1 else 0) == s.sem + s.removed + (if InFlight(s.pcs[t]) then 1 else 0)
    requires ph.Draining? ==>
      && (InFlight(pc) ==> s'.removed < |s.heap|)
      && (pc.Walk? ==> pc.cur.Some? && s'.removed <= pc.cur.value < |s.heap|)
    ensures PhaseInv(c, s', ph)
  {
    TallyUpdate(s.pcs, t, pc, InFlight);
  }

  /** What the list part says does not depend on the readers. */
  lemma ListSame(c: Config, s: State, s': State)
    requires WriterInv(c, s) && LinkInv(s.heap, Linked(s))
    requires s' == s.(pcs := s'.pcs, sem := s'.sem, listLock := s'.listLock, callLock := s'.callLock, log := s'.log, count := s'.count, heap := s'.heap)
    requires |s'.heap| == |s.heap| && forall k :: 0 <= k < |s.heap| ==> s'.heap[k].next == s.heap[k].next
    ensures WriterInv(c, s') && LinkInv(s'.heap, Linked(s'))
  {
  }

  /** A reader that got past the write lock knows that the writer has stopped. */
  lemma OpenMeansStopped(c: Config, s: State, ph: Phase, t: nat)
    requires Inv(c, s, ph) && Enabled(c, s, ReaderStep(t)) && Attempting(s.pcs[t])
    ensures ph == Sharing && (s.writeLocked || s.writer.Stopped?)
    ensures s.pcs[t].DropLock? || s.pcs[t].ToBarrier? ==> s.writer.Stopped?
  {
    ReaderPhase(c, s, ph, t);
  }

  predicate Plain(pc: PC) { Attempting(pc) || pc.AtBarrier? || pc == Look(false) }

  lemma AttemptShape(c: Config, s: State, t: nat)
    requires HandoffMachine.WF(c, s) && t < c.readers && Attempting(s.pcs[t])
    requires s.writeLocked || s.writer.Stopped?
    requires s.pcs[t].DropLock? || s.pcs[t].ToBarrier? ==> s.writer.Stopped?
    ensures var s' := Attempt(c, s, t);
      && s' == s.(pcs := s.pcs[t := s'.pcs[t]], sem := s'.sem)
      && Plain(s'.pcs[t])
      && s.sem == s'.sem + (if InFlight(s'.pcs[t]) then 1 else 0)
      && (s'.pcs[t].DropLock? || s'.pcs[t].ToBarrier? || s'.pcs[t].AtBarrier? ==> s.writer.Stopped?)
  {
  }

  lemma AttemptKeeps(c: Config, s: State, ph: Phase, t: nat)
    requires Inv(c, s, ph) && Enabled(c, s, ReaderStep(t)) && Attempting(s.pcs[t])
    ensures ph == Sharing && Inv(c, Attempt(c, s, t), ph)
  {
    hide WriterInv, LinkInv, DataInv, PhaseInv, Attempt;
    ReaderPhase(c, s, ph, t);
    OpenMeansStopped(c, s, ph, t);
    AttemptShape(c, s, t);
    var s' := Attempt(c, s, t);
    var pc := s'.pcs[t];
    ListSame(c, s, s');
    PhaseMove(c, s, s', ph, t, pc);
    MoveData(s, s', t, pc);
  }

  lemma LookKeeps(c: Config, s: State, ph: Phase, t: nat)
    requires Inv(c, s, ph) && Enabled(c, s, ReaderStep(t)) && (s.pcs[t].Look? || s.pcs[t].LockList?)
    ensures Inv(c, Remove(c, s, t), ph)
  {
    hide WriterInv, LinkInv, DataInv, PhaseInv;
    HeadIsThere(c, s, ph, t);
    ReaderPhase(c, s, ph, t);
    var s' := Remove(c, s, t);
    var pc := s'.pcs[t];
    ListSame(c, s, s');
    PhaseMove(c, s, s', ph, t, pc);
    MoveData(s, s', t, pc);
  }

  lemma CopyKeeps(c: Config, s: State, ph: Phase, t: nat)
    requires Inv(c, s, ph) && Enabled(c, s, ReaderStep(t)) && s.pcs[t].Copy?
    ensures Inv(c, Remove(c, s, t), ph)
  {
    hide WriterInv, LinkInv, DataInv, PhaseInv;
    HeadIsThere(c, s, ph, t);
    ReaderPhase(c, s, ph, t);
    LockHolders(s, t);
    var s' := Remove(c, s, t);
    var pc := s'.pcs[t];
    ListSame(c, s, s');
    PhaseMove(c, s, s', ph, t, pc);
    MoveData(s, s', t, pc);
  }

  lemma LockHolders(s: State, t: nat)
    requires DataInv(s) && t < |s.pcs|
    ensures InList(s.pcs[t]) <==> s.listLock == Some(t)
    ensures InCall(s.pcs[t]) <==> s.callLock == Some(t)
  {
  }

  lemma AdvanceList(c: Config, s: State, s': State)
    requires WriterInv(c, s) && LinkInv(s.heap, Linked(s)) && s.removed < Linked(s)
    requires s' == s.(pcs := s'.pcs, head := s.heap[s.removed].next, removed := s.removed + 1)
    ensures WriterInv(c, s') && LinkInv(s'.heap, Linked(s'))
  {
  }

  lemma AdvanceKeeps(c: Config, s: State, ph: Phase, t: nat)
    requires Inv(c, s, ph) && Enabled(c, s, ReaderStep(t)) && s.pcs[t].Advance?
    ensures Inv(c, Remove(c, s, t), ph)
  {
    hide WriterInv, LinkInv, DataInv, PhaseInv;
    HeadIsThere(c, s, ph, t);
    ReaderPhase(c, s, ph, t);
    var s' := Remove(c, s, t);
    AdvanceList(c, s, s');
    AdvanceData(s, s', t);
    PhaseMove(c, s, s', ph, t, s'.pcs[t]);
  }

  lemma UnlockListKeeps(c: Config, s: State, ph: Phase, t: nat)
    requires Inv(c, s, ph) && Enabled(c, s, ReaderStep(t)) && s.pcs[t].UnlockList?
    ensures Inv(c, Remove(c, s, t), ph)
  {
    hide WriterInv, LinkInv, DataInv, PhaseInv;
    ReaderPhase(c, s, ph, t);
    var s' := Remove(c, s, t);
    var pc := s'.pcs[t];
    ListSame(c, s, s');
    PhaseMove(c, s, s', ph, t, pc);
    MoveData(s, s', t, pc);
  }

  lemma NodeInHand(s: State, t: nat)
    requires DataInv(s) && t < |s.pcs| && Unfreed(s.pcs[t])
    ensures Check(s.heap, Some(s.pcs[t].node)) == Fine
  {
  }

  lemma FreeKeeps(c: Config, s: State, ph: Phase, t: nat)
    requires Inv(c, s, ph) && Enabled(c, s, ReaderStep(t)) && s.pcs[t].FreeNode?
    ensures Inv(c, Remove(c, s, t), ph)
  {
    hide WriterInv, LinkInv, DataInv, PhaseInv;
    ReaderPhase(c, s, ph, t);
    NodeInHand(s, t);
    var s' := Remove(c, s, t);
    ListSame(c, s, s');
    FreeData(s, s', t);
    PhaseMove(c, s, s', ph, t, s'.pcs[t]);
  }

  lemma CallLockKeeps(c: Config, s: State, ph: Phase, t: nat)
    requires Inv(c, s, ph) && Enabled(c, s, ReaderStep(t)) && (s.pcs[t].LockCall? || s.pcs[t].UnlockCall?)
    ensures Inv(c, Handle(c, s, t), ph)
  {
    hide WriterInv, LinkInv, DataInv, PhaseInv;
    ReaderPhase(c, s, ph, t);
    var s' := Handle(c, s, t);
    var pc := s'.pcs[t];
    ListSame(c, s, s');
    PhaseMove(c, s, s', ph, t, pc);
    MoveData(s, s', t, pc);
  }

  lemma LoadKeeps(c: Config, s: State, ph: Phase, t: nat)
    requires Inv(c, s, ph) && Enabled(c, s, ReaderStep(t)) && s.pcs[t].CountLoad?
    ensures Inv(c, Handle(c, s, t), ph)
  {
    hide WriterInv, LinkInv, DataInv, PhaseInv;
    ReaderPhase(c, s, ph, t);
    LockHolders(s, t);
    var s' := Handle(c, s, t);
    var pc := s'.pcs[t];
    ListSame(c, s, s');
    PhaseMove(c, s, s', ph, t, pc);
    MoveData(s, s', t, pc);
  }

  lemma InvokeKeeps(c: Config, s: State, ph: Phase, t: nat)
    requires Inv(c, s, ph) && Enabled(c, s, ReaderStep(t)) && s.pcs[t].Invoke?
    ensures Inv(c, Handle(c, s, t), ph)
  {
    hide WriterInv, LinkInv, DataInv, PhaseInv;
    ReaderPhase(c, s, ph, t);
    var s' := Handle(c, s, t);
    ListSame(c, s, s');
    InvokeData(s, s', t);
    PhaseMove(c, s, s', ph, t, s'.pcs[t]);
  }

  lemma StoreKeeps(c: Config, s: State, ph: Phase, t: nat)
    requires Inv(c, s, ph) && Enabled(c, s, ReaderStep(t)) && s.pcs[t].CountStore?
    ensures Inv(c, Handle(c, s, t), ph)
  {
    hide WriterInv, LinkInv, DataInv, PhaseInv;
    ReaderPhase(c, s, ph, t);
    AloneInCount(c, s, ph, t);
    var s' := Handle(c, s, t);
    ListSame(c, s, s');
    StoreData(s, s', t);
    PhaseMove(c, s, s', ph, t, s'.pcs[t]);
  }

  // ---------------------------------------------------------------- the drain

  /** The walk of `sbuffer_size` stays on nodes that are not removed. */
  lemma WalkIsSafe(c: Config, s: State, t: nat)
    requires Inv(c, s, Draining(t)) && Measuring(s.pcs[t])
    ensures s.head == if s.removed < |s.heap| then Some(s.removed) else None
    ensures s.pcs[t].Walk? ==>
      && Check(s.heap, s.pcs[t].cur) == Fine
      && (s.pcs[t].cur != s.tail ==> s.heap[s.pcs[t].cur.value].next == Some(s.pcs[t].cur.value + 1) && s.pcs[t].cur.value + 1 < |s.heap|)
  {
  }

  lemma SizeKeeps(c: Config, s: State, ph: Phase, t: nat)
    requires Inv(c, s, ph) && Enabled(c, s, ReaderStep(t)) && Measuring(s.pcs[t])
    ensures Inv(c, Size(c, s, t), if Size(c, s, t).pcs[t].Exited? then Finished else ph)
  {
    hide WriterInv, LinkInv, DataInv, PhaseInv;
    ReaderPhase(c, s, ph, t);
    WalkIsSafe(c, s, t);
    WriterAtRest(c, s);
    var s' := Size(c, s, t);
    var pc := s'.pcs[t];
    ListSame(c, s, s');
    MoveData(s, s', t, pc);
    if pc.Exited? {
      Finish(c, s, s', t);
    } else {
      PhaseMove(c, s, s', ph, t, pc);
    }
  }

  lemma Finish(c: Config, s: State, s': State, t: nat)
    requires DrainInv(s, t) && s.removed == |s.heap| && s' == s.(pcs := s.pcs[t := Exited])
    ensures PhaseInv(c, s', Finished)
  {
  }

  lemma WriterAtRest(c: Config, s: State)
    requires WriterInv(c, s) && s.writer.Stopped?
    ensures s.removed <= |s.heap|
  {
  }

  lemma OpenKeeps(c: Config, s: State, ph: Phase, serial: nat)
    requires Inv(c, s, ph) && Enabled(c, s, Open(serial))
    ensures Inv(c, Apply(c, s, Open(serial)), Draining(serial))
  {
    hide WriterInv, LinkInv, DataInv, PhaseInv;
    OnlyAtBarrier(c, s, ph);
    var s' := Apply(c, s, Open(serial));
    ListSame(c, s, s');
    AllOutside(s, s');
    assert PhaseInv(c, s', Draining(serial)) by { DrainBegins(c, s, s', serial); }
  }

  lemma DrainBegins(c: Config, s: State, s': State, serial: nat)
    requires s.writer.Stopped? && s.started && serial < |s.pcs|
    requires s' == s.(pcs := seq(|s.pcs|, t => if t == serial then Measure else Exited))
    ensures PhaseInv(c, s', Draining(serial))
  {
  }

  lemma OnlyAtBarrier(c: Config, s: State, ph: Phase)
    requires Inv(c, s, ph) && forall t :: 0 <= t < c.readers ==> s.pcs[t].AtBarrier?
    ensures ph == Sharing && s.started && s.writer.Stopped?
  {
    assert s.pcs[0] == AtBarrier;
  }

  // ---------------------------------------------------------------- every step

  ghost function Next(c: Config, s: State, l: Label, ph: Phase): Phase
    requires HandoffMachine.WF(c, s) && Enabled(c, s, l)
  {
    match l
    case Open(serial) => Draining(serial)
    case ReaderStep(t) => if Measuring(s.pcs[t]) && Size(c, s, t).pcs[t].Exited? then Finished else ph
    case _ => ph
  }

  lemma ReadKeeps(c: Config, s: State, ph: Phase, t: nat)
    requires Inv(c, s, ph) && Enabled(c, s, ReaderStep(t))
    ensures Inv(c, Read(c, s, t), Next(c, s, ReaderStep(t), ph))
  {
    hide WriterInv, LinkInv, DataInv, PhaseInv, Attempt, Remove, Handle, Size;
    var pc := s.pcs[t];
    if Attempting(pc) { AttemptKeeps(c, s, ph, t); }
    else if Measuring(pc) { SizeKeeps(c, s, ph, t); }
    else if pc.Look? || pc.LockList? { LookKeeps(c, s, ph, t); }
    else if pc.Copy? { CopyKeeps(c, s, ph, t); }
    else if pc.Advance? { AdvanceKeeps(c, s, ph, t); }
    else if pc.UnlockList? { UnlockListKeeps(c, s, ph, t); }
    else if pc.FreeNode? { FreeKeeps(c, s, ph, t); }
    else if pc.Invoke? { InvokeKeeps(c, s, ph, t); }
    else if pc.CountStore? { StoreKeeps(c, s, ph, t); }
    else if pc.CountLoad? { LoadKeeps(c, s, ph, t); }
    else { CallLockKeeps(c, s, ph, t); }
  }

  lemma ApplyKeeps(c: Config, s: State, ph: Phase, l: Label)
    requires Inv(c, s, ph) && Enabled(c, s, l)
    ensures Inv(c, Apply(c, s, l), Next(c, s, l, ph))
  {
    hide Read, Write;
    match l {
      case Produce(datum) => ProduceKeeps(c, s, ph, datum);
      case WriterStep =>
        if s.writer.Posting? { PostKeeps(c, s, ph); }
        else if s.writer.Stepping? { StepKeeps(c, s, ph); }
        else if s.tail.Some? { LinkKeeps(c, s, ph); }
        else { FirstLinkKeeps(c, s, ph); }
      case WriterReady => ReadyKeeps(c, s, ph);
      case Start => StartKeeps(c, s, ph);
      case Stop => StopKeeps(c, s, ph);
      case ReaderStep(t) => ReadKeeps(c, s, ph, t);
      case Open(serial) => OpenKeeps(c, s, ph, serial);
    }
  }
}
