/** The invariant of the hand-off protocol, for a writer whose end of input is sticky. */
module HandoffInvariant {
  import opened Basics
  import opened Heap
  import opened HandoffMachine

  datatype Phase = Sharing | Draining(serial: nat) | Finished

  function Linked(s: State): nat {
    if s.writer.Linking? && |s.heap| > 0 then |s.heap| - 1 else |s.heap|
  }

  ghost predicate LinkInv(heap: seq<Node>, linked: nat) {
    linked <= |heap| && forall k :: 0 <= k < |heap| ==> heap[k].next == if k + 1 < linked then Some(k + 1) else None
  }

  /** The writer is ahead of its posts by the `readers + 1` nodes it buffered first, or it posts nothing at all. */
  ghost predicate PostInv(c: Config, s: State) {
    if !s.started then
      s.posts == 0 && |s.heap| <= c.readers + 1 && (s.writer.AtStartBarrier? ==> s.atEnd == (|s.heap| < c.readers + 1))
    else if s.atEnd then
      s.posts == 0 && |s.heap| < c.readers + 1 && (s.writer.Idle? || s.writer.Stopped?)
    else
      |s.heap| == c.readers + 1 + s.posts + if s.writer.Linking? || s.writer.Stepping? || s.writer.Posting? then 1 else 0
  }

  ghost predicate WriterInv(c: Config, s: State) {
    && PostInv(c, s)
    && s.tail == (if Linked(s) == 0 then None else Some(if s.writer.Stepping? then Linked(s) - 2 else Linked(s) - 1))
    && (s.writer.Stepping? ==> |s.heap| >= 2)
    && (s.writer.AtStartBarrier? ==> !s.started)
    && (s.writer.Stopped? || s.writer.Posting? ==> s.started)
    && s.writeLocked == (s.writer.AtStartBarrier? || (s.started && !s.writer.Stopped?))
    && s.removed <= Linked(s)
    && s.head == (if s.removed < Linked(s) then Some(s.removed) else None)
  }

  /** The node whose datum a reader has in hand and not yet processed. */
  function Carried(pc: PC): Option<nat> {
    if pc.UnlockList? || pc.FreeNode? || pc.LockCall? || pc.Invoke? then Some(pc.node) else None
  }

  predicate Unfreed(pc: PC) { pc.UnlockList? || pc.FreeNode? }

  ghost predicate Logged(log: seq<Processed>, node: nat) {
    exists i :: 0 <= i < |log| && log[i].node == node
  }

  ghost predicate CarriedBySome(pcs: seq<PC>, node: nat) {
    exists t :: 0 <= t < |pcs| && Carried(pcs[t]) == Some(node)
  }

  /** Every removed node is processed or in exactly one reader's hands, never both; its datum is its own. */
  ghost predicate CarryInv(heap: seq<Node>, pcs: seq<PC>, log: seq<Processed>, removed: nat) {
    && removed <= |heap|
    && (forall t :: 0 <= t < |pcs| && Carried(pcs[t]).Some? ==>
          pcs[t].node < removed && pcs[t].datum == heap[pcs[t].node].datum && !Logged(log, pcs[t].node))
    && (forall t, u :: 0 <= t < u < |pcs| && Carried(pcs[t]).Some? ==> Carried(pcs[t]) != Carried(pcs[u]))
    && (forall k: nat :: k < removed ==> Logged(log, k) || CarriedBySome(pcs, k))
  }

  ghost predicate LogInv(heap: seq<Node>, log: seq<Processed>, removed: nat) {
    && removed <= |heap|
    && (forall i :: 0 <= i < |log| ==> log[i].node < removed && log[i].datum == heap[log[i].node].datum)
    && (forall i, j :: 0 <= i < j < |log| ==> log[i].node != log[j].node)
  }

  /** Nodes not removed, and nodes on their way to `free`, are alive. */
  ghost predicate LiveInv(heap: seq<Node>, pcs: seq<PC>, removed: nat) {
    && (forall k :: removed <= k < |heap| ==> heap[k].live)
    && (forall t :: 0 <= t < |pcs| && Unfreed(pcs[t]) ==> pcs[t].node < |heap| && heap[pcs[t].node].live)
  }

  predicate Counting(pc: PC) { pc.CountLoad? || pc.CountStore? }

  ghost predicate CountInv(pcs: seq<PC>, count: nat, log: seq<Processed>) {
    && count + Tally(pcs, Counting) == |log|
    && forall t :: 0 <= t < |pcs| && pcs[t].CountStore? ==> pcs[t].seen == count
  }

  predicate InList(pc: PC) { pc.Copy? || pc.Advance? || pc.UnlockList? }

  predicate InCall(pc: PC) {
    (pc.Invoke? && !pc.drain) || (pc.CountLoad? && !pc.drain) || (pc.CountStore? && !pc.drain) || pc.UnlockCall?
  }

  ghost predicate LockInv(pcs: seq<PC>, listLock: Option<nat>, callLock: Option<nat>) {
    && (forall t :: 0 <= t < |pcs| ==> (InList(pcs[t]) <==> listLock == Some(t)))
    && (forall t :: 0 <= t < |pcs| ==> (InCall(pcs[t]) <==> callLock == Some(t)))
    && (listLock.Some? ==> listLock.value < |pcs|)
    && (callLock.Some? ==> callLock.value < |pcs|)
  }

  /** The datum copied under the lock is that of the node `head` still points to. */
  ghost predicate CopyInv(heap: seq<Node>, pcs: seq<PC>, removed: nat) {
    forall t :: 0 <= t < |pcs| && pcs[t].Advance? ==> removed < |heap| && pcs[t].datum == heap[removed].datum
  }

  /** A token taken but not yet turned into a removal. */
  predicate InFlight(pc: PC) { pc.Look? || pc.LockList? || pc.Copy? || pc.Advance? }

  predicate Drains(pc: PC) {
    match pc
    case Look(drain) => drain
    case LockList(drain) => drain
    case Copy(drain) => drain
    case Advance(drain, _) => drain
    case UnlockList(drain, _, _) => drain
    case FreeNode(drain, _, _) => drain
    case Invoke(drain, _, _) => drain
    case CountLoad(drain) => drain
    case CountStore(drain, _) => drain
    case Measure => true
    case Walk(_, _) => true
    case _ => false
  }

  ghost predicate SharingInv(c: Config, s: State) {
    && s.sem + Tally(s.pcs, InFlight) + s.removed == s.posts
    && forall t :: 0 <= t < |s.pcs| ==>
         && !Drains(s.pcs[t]) && !s.pcs[t].Exited?
         && (s.pcs[t].AtStart? <==> !s.started)
         && (s.pcs[t].DropLock? || s.pcs[t].ToBarrier? || s.pcs[t].AtBarrier? ==> s.writer.Stopped?)
  }

  ghost predicate DrainInv(s: State, serial: nat) {
    && serial < |s.pcs| && s.writer.Stopped? && s.started
    && Drains(s.pcs[serial])
    && (InFlight(s.pcs[serial]) ==> s.removed < |s.heap|)
    && (s.pcs[serial].Walk? ==> s.pcs[serial].cur.Some? && s.removed <= s.pcs[serial].cur.value < |s.heap|)
    && forall t :: 0 <= t < |s.pcs| && t != serial ==> s.pcs[t].Exited?
  }

  ghost predicate FinishedInv(s: State) {
    && s.writer.Stopped? && s.started && s.removed == |s.heap|
    && forall t :: 0 <= t < |s.pcs| ==> s.pcs[t].Exited?
  }

  ghost predicate PhaseInv(c: Config, s: State, ph: Phase) {
    match ph
    case Sharing => SharingInv(c, s)
    case Draining(serial) => DrainInv(s, serial)
    case Finished => FinishedInv(s)
  }

  ghost predicate DataInv(s: State) {
    && CarryInv(s.heap, s.pcs, s.log, s.removed)
    && LogInv(s.heap, s.log, s.removed)
    && LiveInv(s.heap, s.pcs, s.removed)
    && CountInv(s.pcs, s.count, s.log)
    && LockInv(s.pcs, s.listLock, s.callLock)
    && CopyInv(s.heap, s.pcs, s.removed)
  }

  ghost predicate Inv(c: Config, s: State, ph: Phase) {
    && c.readers > 0 && c.sticky
    && HandoffMachine.WF(c, s)
    && s.fault == Fine
    && WriterInv(c, s)
    && LinkInv(s.heap, Linked(s))
    && DataInv(s)
    && PhaseInv(c, s, ph)
  }

  lemma InitInv(c: Config)
    requires c.readers > 0 && c.sticky
    ensures Inv(c, Init(c), Sharing)
  {
    TallyNone(Init(c).pcs, InFlight);
    TallyNone(Init(c).pcs, Counting);
  }

  /** While tokens are in use, at least `readers + 1` linked nodes are never removed. */
  lemma SharingSlack(c: Config, s: State)
    requires c.readers > 0 && WriterInv(c, s) && SharingInv(c, s)
    ensures s.posts > 0 ==> s.removed + c.readers + 1 <= Linked(s)
    ensures s.removed > 0 || s.sem > 0 || Tally(s.pcs, InFlight) > 0 ==> s.posts > 0
  {
  }

  /** The node `tail` points to is not removed while the writer still inserts. */
  lemma TailIsLive(c: Config, s: State, ph: Phase)
    requires Inv(c, s, ph) && s.tail.Some? && (s.writer.Linking? || s.writer.Stepping?)
    ensures ph.Sharing? && Check(s.heap, s.tail) == Fine
    ensures |s.heap| >= 2 && s.tail == Some(|s.heap| - 2) && s.removed <= |s.heap| - 2
  {
    SharingSlack(c, s);
  }
}
