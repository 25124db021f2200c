/**
 The round of `lab8/sbuffer copy v4.c` (`rb_lock_execute`): a reader keeps its node lock until all readers have met
 at the barrier.  One round over the first `readers` nodes, which the writer has linked, while it links more; nothing is
 freed.  Nodes are numbered from `head` on.
 */
module HeldRound {
  import opened Basics
  import opened Heap
  import opened NodeRound
  import opened BatchMachine
  import opened BatchInvariant
  import opened BatchProofs
  import opened BatchLog
  import opened BatchCount

  datatype HeldPC = Before | Inside | AtBarrier | Opened | Gone

  datatype Held = Held(pcs: seq<HeldPC>, round: Round, heap: seq<Node>)

  datatype Move = Reader(t: nat) | OpenAll | Append(datum: SensorData, tag: nat)

  predicate WFHeld(c: Config, s: Held) {
    && |s.pcs| == c.readers
    && NodeRound.WF(s.round, c.readers, c.callbacks)
    && forall t :: 0 <= t < c.readers ==>
         match s.pcs[t]
         case Inside => s.round.stages[t] != Outside
         case AtBarrier => s.round.stages[t].Executed?
         case Opened => s.round.stages[t].Executed?
         case _ => s.round.stages[t] == Outside
  }

  function Begin(c: Config, heap: seq<Node>): (s: Held)
    ensures WFHeld(c, s)
  {
    Held(seq(c.readers, _ => Before), NodeRound.Idle(c.readers, c.callbacks, SensorData(0, 0.0, 0)), heap)
  }

  /** The writer links a node behind the last one. */
  function Appended(heap: seq<Node>, datum: SensorData, tag: nat): (r: seq<Node>)
    ensures |r| == |heap| + 1
  {
    var n := |heap|;
    (if n == 0 then [] else heap[n - 1 := heap[n - 1].(next := Some(n))]) + [Node(datum, tag, None, true)]
  }

  predicate CanMove(c: Config, s: Held, m: Move)
    requires WFHeld(c, s)
  {
    && s.round.fault == Fine
    && match m
       case Reader(t) => t < c.readers && (s.pcs[t].Before? || s.pcs[t].Inside? || s.pcs[t].Opened?)
       case OpenAll => forall t :: 0 <= t < c.readers ==> s.pcs[t].AtBarrier?
       case Append(_, _) => true
  }

  function MoveReader(c: Config, s: Held, t: nat): (s': Held)
    requires WFHeld(c, s) && CanMove(c, s, Reader(t))
    ensures WFHeld(c, s')
  {
    if s.pcs[t].Before? then s.(pcs := s.pcs[t := Inside], round := Enter(s.round, t, Some(0)))
    else if s.pcs[t].Opened? then
      var round' := Unlock(s.heap, c.readers, c.callbacks, s.round, t);
      s.(pcs := if round'.fault == Fine then s.pcs[t := Gone] else s.pcs, round := round')
    else if s.round.stages[t].Executed? then s.(pcs := s.pcs[t := AtBarrier])
    else s.(round := Act(s.heap, c.readers, c.callbacks, s.round, 0, t))
  }

  function Do(c: Config, s: Held, m: Move): (s': Held)
    requires WFHeld(c, s) && CanMove(c, s, m)
    ensures WFHeld(c, s')
  {
    match m
    case Reader(t) => MoveReader(c, s, t)
    case OpenAll => s.(pcs := seq(c.readers, _ => Opened))
    case Append(datum, tag) => s.(heap := Appended(s.heap, datum, tag))
  }

  /** The state a sequence of moves leads to. */
  function Play(c: Config, heap: seq<Node>, moves: seq<Move>): (r: Option<Held>)
    ensures r.Some? ==> WFHeld(c, r.value)
  {
    if moves == [] then Some(Begin(c, heap))
    else
      var m := moves[|moves| - 1];
      match Play(c, heap, moves[..|moves| - 1])
      case None => None
      case Some(s) => if CanMove(c, s, m) then Some(Do(c, s, m)) else None
  }

  // ---------------------------------------------------------------- invariant

  /** Until the barrier opens, whoever has chosen a node still holds its lock. */
  ghost predicate StillHeld(r: Round) {
    forall t :: 0 <= t < |r.chosen| && r.chosen[t].Some? && r.chosen[t].value < |r.nodeLock| ==>
      r.nodeLock[r.chosen[t].value] == Some(t)
  }

  predicate HasRun(c: Config, r: Round, t: nat, cb: nat)
    requires NodeRound.WF(r, c.readers, c.callbacks) && t < c.readers && cb < c.callbacks
  {
    match r.stages[t]
    case Executing(_, _, flags, _, _) => flags[cb]
    case Executed(_) => true
    case _ => false
  }

  ghost predicate RunsInv(c: Config, r: Round)
    requires NodeRound.WF(r, c.readers, c.callbacks)
  {
    && (forall t: nat, cb: nat :: t < c.readers && cb < c.callbacks ==> (Made(r.log, 0, t, cb) <==> HasRun(c, r, t, cb)))
    && (forall i :: 0 <= i < |r.log| && r.log[i].reader < c.readers ==> r.chosen[r.log[i].reader] == Some(r.log[i].node))
  }

  /** Before the barrier opens. */
  ghost predicate HeldInv(c: Config, s: Held) {
    && WFHeld(c, s)
    && RoundInv(s.heap, s.round, 0, c.readers, c.callbacks)
    && StillHeld(s.round)
    && EntriesInv(c, s.round.log, s.heap, 0)
    && OnceInv(s.round.log)
    && RunsInv(c, s.round)
    && forall t :: 0 <= t < c.readers ==>
         && (s.pcs[t].Before? || s.pcs[t].Inside? || s.pcs[t].AtBarrier?)
         && (s.pcs[t].Before? ==> s.round.chosen[t] == None)
  }

  /** A step that runs no callback. */
  lemma RunsFrame(c: Config, r: Round, r': Round)
    requires NodeRound.WF(r, c.readers, c.callbacks) && NodeRound.WF(r', c.readers, c.callbacks) && RunsInv(c, r)
    requires r'.log == r.log
    requires forall t: nat, cb: nat :: t < c.readers && cb < c.callbacks ==> HasRun(c, r', t, cb) == HasRun(c, r, t, cb)
    requires forall t: nat :: t < c.readers && r'.chosen[t] != r.chosen[t] ==> forall cb: nat :: cb < c.callbacks ==> !HasRun(c, r, t, cb)
    requires forall i :: 0 <= i < |r.log| ==> r.log[i].round == 0 && r.log[i].cb < c.callbacks
    ensures RunsInv(c, r')
  {
    forall i | 0 <= i < |r.log| && r.log[i].reader < c.readers ensures r'.chosen[r.log[i].reader] == Some(r.log[i].node) {
      assert Made(r.log, 0, r.log[i].reader, r.log[i].cb);
    }
  }

  lemma CallRuns(c: Config, heap: seq<Node>, r: Round, t: nat)
    requires RoundInv(heap, r, 0, c.readers, c.callbacks) && EntriesInv(c, r.log, heap, 0) && OnceInv(r.log) && RunsInv(c, r)
    requires t < c.readers && r.stages[t].Executing? && r.stages[t].spot == Call
    ensures var r' := Execute(heap, c.readers, c.callbacks, r, 0, t);
      EntriesInv(c, r'.log, heap, 0) && OnceInv(r'.log) && RunsInv(c, r')
  {
    var r', st := Execute(heap, c.readers, c.callbacks, r, 0, t), r.stages[t];
    assert StageInv(heap, r, 0, c.readers, c.callbacks, t);
    var e := Invocation(0, t, st.cb, st.node, r.args[st.cb]);
    assert !HasRun(c, r, t, st.cb);
    AppendEntry(c, r.log, e, heap, 0);
    CallRunsOnce(c, r, r', t, e);
  }

  lemma CallRunsOnce(c: Config, r: Round, r': Round, t: nat, e: Invocation)
    requires NodeRound.WF(r, c.readers, c.callbacks) && NodeRound.WF(r', c.readers, c.callbacks) && RunsInv(c, r) && t < c.readers
    requires r.stages[t].Executing? && e.round == 0 && e.reader == t && e.cb == r.stages[t].cb < c.callbacks
    requires r.chosen[t] == Some(e.node)
    requires r'.stages[t].Executing? && r'.stages[t].flags == r.stages[t].flags[e.cb := true]
    requires r'.stages == r.stages[t := r'.stages[t]] && r'.log == r.log + [e] && r'.chosen == r.chosen
    ensures RunsInv(c, r')
  {
    forall u: nat, cb: nat | u < c.readers && cb < c.callbacks ensures Made(r'.log, 0, u, cb) <==> HasRun(c, r', u, cb) {
      MadeAppend(r.log, e, 0, u, cb);
      assert Made(r.log, 0, u, cb) <==> HasRun(c, r, u, cb);
    }
  }

  /** A reader's step inside the round that calls nothing. */
  lemma SweepRuns(c: Config, heap: seq<Node>, r: Round, t: nat)
    requires NodeRound.WF(r, c.readers, c.callbacks) && EntriesInv(c, r.log, heap, 0) && RunsInv(c, r)
    requires t < c.readers && r.stages[t].Executing? && r.stages[t].spot != Call
    requires r.stages[t].left == Unset(r.stages[t].flags)
    ensures RunsInv(c, Execute(heap, c.readers, c.callbacks, r, 0, t))
    ensures Execute(heap, c.readers, c.callbacks, r, 0, t).log == r.log
  {
    if r.stages[t].left == 0 {
      UnsetZero(r.stages[t].flags);
    }
    hide RunsInv;
    RunsFrame(c, r, Execute(heap, c.readers, c.callbacks, r, 0, t));
  }

  lemma ScanRuns(c: Config, heap: seq<Node>, r: Round, t: nat)
    requires NodeRound.WF(r, c.readers, c.callbacks) && EntriesInv(c, r.log, heap, 0) && RunsInv(c, r)
    requires t < c.readers && (r.stages[t].Scanning? || r.stages[t].Advancing?)
    ensures RunsInv(c, Scan(heap, c.readers, c.callbacks, r, t))
    ensures Scan(heap, c.readers, c.callbacks, r, t).log == r.log
  {
    hide RunsInv;
    RunsFrame(c, r, Scan(heap, c.readers, c.callbacks, r, t));
  }

  /** A reader's step inside the round. */
  lemma ActRuns(c: Config, heap: seq<Node>, r: Round, t: nat)
    requires RoundInv(heap, r, 0, c.readers, c.callbacks) && EntriesInv(c, r.log, heap, 0) && OnceInv(r.log) && RunsInv(c, r)
    requires t < c.readers && (r.stages[t].Scanning? || r.stages[t].Advancing? || r.stages[t].Executing?)
    ensures var r' := Act(heap, c.readers, c.callbacks, r, 0, t);
      EntriesInv(c, r'.log, heap, 0) && OnceInv(r'.log) && RunsInv(c, r')
  {
    assert StageInv(heap, r, 0, c.readers, c.callbacks, t);
    hide RunsInv, EntriesInv, OnceInv, Scan, Execute;
    if !r.stages[t].Executing? {
      ScanRuns(c, heap, r, t);
    } else if r.stages[t].spot == Call {
      CallRuns(c, heap, r, t);
    } else {
      SweepRuns(c, heap, r, t);
    }
  }

  lemma ActHolds(c: Config, heap: seq<Node>, r: Round, t: nat)
    requires RoundInv(heap, r, 0, c.readers, c.callbacks) && StillHeld(r)
    requires t < c.readers && (r.stages[t].Scanning? || r.stages[t].Advancing? || r.stages[t].Executing?)
    ensures StillHeld(Act(heap, c.readers, c.callbacks, r, 0, t))
  {
    hide StillHeld;
    if r.stages[t].Executing? {
      ExecuteHolds(c, heap, r, t);
    } else {
      ScanHolds(c, heap, r, t);
    }
  }

  lemma ExecuteHolds(c: Config, heap: seq<Node>, r: Round, t: nat)
    requires NodeRound.WF(r, c.readers, c.callbacks) && StillHeld(r) && t < c.readers && r.stages[t].Executing?
    ensures StillHeld(Execute(heap, c.readers, c.callbacks, r, 0, t))
  {
    assert Execute(heap, c.readers, c.callbacks, r, 0, t).chosen == r.chosen;
    assert Execute(heap, c.readers, c.callbacks, r, 0, t).nodeLock == r.nodeLock;
    hide Execute, NodeRound.WF;
  }

  lemma ScanHolds(c: Config, heap: seq<Node>, r: Round, t: nat)
    requires RoundInv(heap, r, 0, c.readers, c.callbacks) && StillHeld(r)
    requires t < c.readers && (r.stages[t].Scanning? || r.stages[t].Advancing?)
    ensures StillHeld(Scan(heap, c.readers, c.callbacks, r, t))
  {
    ScanTakes(c, heap, r, t);
    var r' := Scan(heap, c.readers, c.callbacks, r, t);
    hide RoundInv, Scan, NodeRound.WF;
    forall u | 0 <= u < |r'.chosen| && r'.chosen[u].Some? && r'.chosen[u].value < |r'.nodeLock|
      ensures r'.nodeLock[r'.chosen[u].value] == Some(u)
    {
      if u != t { assert r.chosen[u] == r'.chosen[u]; }
    }
  }

  /** A step of the scan changes locks and choices only by taking a free lock. */
  lemma ScanTakes(c: Config, heap: seq<Node>, r: Round, t: nat)
    requires RoundInv(heap, r, 0, c.readers, c.callbacks)
    requires t < c.readers && (r.stages[t].Scanning? || r.stages[t].Advancing?)
    ensures
      var r' := Scan(heap, c.readers, c.callbacks, r, t);
      && |r.chosen| == |r.nodeLock| == c.readers
      && ((r'.chosen == r.chosen && r'.nodeLock == r.nodeLock)
          || exists node: nat :: node < c.readers && r.nodeLock[node] == None
               && r'.chosen == r.chosen[t := Some(node)] && r'.nodeLock == r.nodeLock[node := Some(t)])
  {
    assert StageInv(heap, r, 0, c.readers, c.callbacks, t);
    hide LocksInv, PrefixInv;
  }

  lemma MoveKeeps(c: Config, s: Held, t: nat)
    requires HeldInv(c, s) && CanMove(c, s, Reader(t))
    ensures HeldInv(c, MoveReader(c, s, t))
  {
    hide EntriesInv, OnceInv;
    if s.pcs[t].Before? {
      EnterKeeps(s.heap, s.round, 0, c.readers, c.callbacks, t);
      EnterRuns(c, s.heap, s.round, t);
    } else if !s.round.stages[t].Executed? {
      ActKeeps(s.heap, s.round, 0, c.readers, c.callbacks, 0, t);
      ActRuns(c, s.heap, s.round, t);
      ActHolds(c, s.heap, s.round, t);
      hide RoundInv, RunsInv, StillHeld, Act;
    }
  }

  /** The writer does not disturb the round. */
  lemma AppendKeeps(c: Config, s: Held, datum: SensorData, tag: nat)
    requires HeldInv(c, s)
    ensures HeldInv(c, s.(heap := Appended(s.heap, datum, tag)))
  {
    var heap' := Appended(s.heap, datum, tag);
    assert Batch(heap', 0, c.readers);
    HeapGrows(s.heap, heap', s.round, 0, c.readers, c.callbacks);
    hide RoundInv, OnceInv, RunsInv, StillHeld;
  }

  lemma EnterRuns(c: Config, heap: seq<Node>, r: Round, t: nat)
    requires NodeRound.WF(r, c.readers, c.callbacks) && RunsInv(c, r) && EntriesInv(c, r.log, heap, 0) && t < c.readers
    requires r.stages[t] == Outside && r.chosen[t] == None && StillHeld(r)
    ensures RunsInv(c, Enter(r, t, Some(0))) && StillHeld(Enter(r, t, Some(0)))
  {
    hide RunsInv;
    RunsFrame(c, r, Enter(r, t, Some(0)));
  }

  /** Nobody has met at the barrier yet. */
  ghost predicate NotOpened(s: Held) {
    forall t :: 0 <= t < |s.pcs| ==> !s.pcs[t].Opened? && !s.pcs[t].Gone?
  }

  // ---------------------------------------------------------------- the round's result

  ghost predicate RanOn(log: seq<Invocation>, i: nat, node: nat, cb: nat, datum: SensorData) {
    && i < |log| && log[i].node == node && log[i].cb == cb && log[i].datum == datum
    && forall j :: 0 <= j < |log| && log[j].node == node && log[j].cb == cb ==> j == i
  }

  ghost predicate RanExactlyOnce(log: seq<Invocation>, node: nat, cb: nat, datum: SensorData) {
    exists i: nat :: RanOn(log, i, node, cb, datum)
  }

  /**
   The readers are in bijection with the first `readers` nodes, and every callback has run exactly once on each of these
   nodes, with its datum.
   */
  ghost predicate Bijective(c: Config, r: Round, data: seq<SensorData>) {
    && Distinct(r.chosen) && ProcessedPrefix(r.chosen, 0, c.readers) && |data| >= c.readers
    && (forall node: nat, cb: nat :: node < c.readers && cb < c.callbacks ==> RanExactlyOnce(r.log, node, cb, data[node]))
    && |r.log| == c.readers * c.callbacks
  }

  /** All readers are at the barrier or have passed it. */
  ghost predicate Met(s: Held) {
    forall t :: 0 <= t < |s.pcs| ==> s.pcs[t].AtBarrier? || s.pcs[t].Opened? || s.pcs[t].Gone?
  }

  lemma RoundIsBijective(c: Config, s: Held)
    requires HeldInv(c, s) && c.readers > 0 && forall t :: 0 <= t < c.readers ==> s.pcs[t].AtBarrier?
    ensures Bijective(c, s.round, Data(s.heap))
  {
    var r := s.round;
    AllHold(c, s);
    HeldFacts(c, s);
    hide HeldInv, AllChose, ProcessedPrefix, Distinct, RanExactlyOnce, EntriesInv, PastInv, OnceInv;
    var m := RoundOutcome(r.chosen, 0, c.readers);
    AllNodesRan(c, s);
    LogLength(c, r.log, s.heap, 1);
    Product3(1, c.readers, c.callbacks);
  }

  lemma HeldFacts(c: Config, s: Held)
    requires HeldInv(c, s)
    ensures OnceInv(s.round.log) && |s.heap| >= c.readers
    ensures forall i :: 0 <= i < |s.round.log| ==> s.round.log[i].round < 1
  {
    hide OnceInv, RunsInv, StillHeld, StageInv, LocksInv, PrefixInv;
  }

  lemma AllNodesRan(c: Config, s: Held)
    requires HeldInv(c, s) && PastInv(c, s.round.log, 1) && Distinct(s.round.chosen)
    requires ProcessedPrefix(s.round.chosen, 0, c.readers) && |s.heap| >= c.readers
    ensures forall node: nat, cb: nat :: node < c.readers && cb < c.callbacks ==>
      RanExactlyOnce(s.round.log, node, cb, Data(s.heap)[node])
  {
    hide HeldInv, PastInv, Distinct, RanExactlyOnce;
    forall node: nat, cb: nat | node < c.readers && cb < c.callbacks
      ensures RanExactlyOnce(s.round.log, node, cb, Data(s.heap)[node])
    {
      assert Some(node) in s.round.chosen;
      NodeRan(c, s, node, cb);
    }
  }

  lemma AllHold(c: Config, s: Held)
    requires HeldInv(c, s) && forall t :: 0 <= t < c.readers ==> s.pcs[t].AtBarrier?
    ensures AllChose(s.round.chosen, 0, c.readers) && Distinct(s.round.chosen)
    ensures EntriesInv(c, s.round.log, s.heap, 1) && PastInv(c, s.round.log, 1)
  {
    forall t | 0 <= t < c.readers ensures s.round.chosen[t].Some? {
      assert StageInv(s.heap, s.round, 0, c.readers, c.callbacks, t);
    }
    forall t: nat, cb: nat | t < c.readers && cb < c.callbacks ensures Made(s.round.log, 0, t, cb) {
      assert HasRun(c, s.round, t, cb);
    }
  }

  lemma NodeRan(c: Config, s: Held, node: nat, cb: nat)
    requires HeldInv(c, s) && PastInv(c, s.round.log, 1) && Distinct(s.round.chosen)
    requires Some(node) in s.round.chosen && node < |s.heap| && cb < c.callbacks
    ensures RanExactlyOnce(s.round.log, node, cb, s.heap[node].datum)
  {
    var log, chosen := s.round.log, s.round.chosen;
    var t :| 0 <= t < c.readers && chosen[t] == Some(node);
    assert Made(log, 0, t, cb);
    var i: nat :| i < |log| && log[i].round == 0 && log[i].reader == t && log[i].cb == cb;
    forall j | 0 <= j < |log| && log[j].node == node && log[j].cb == cb ensures j == i {
      assert chosen[log[j].reader] == Some(node);
    }
    assert RanOn(log, i, node, cb, s.heap[node].datum);
  }

  // ---------------------------------------------------------------- the barrier opens

  /** After the barrier has opened: the readers give their locks back, and nothing else happens. */
  ghost predicate OpenedInv(c: Config, s: Held) {
    && WFHeld(c, s)
    && RoundInv(s.heap, s.round, 0, c.readers, c.callbacks)
    && Bijective(c, s.round, Data(s.heap))
    && forall t :: 0 <= t < c.readers ==> s.pcs[t].Opened? || s.pcs[t].Gone?
  }

  lemma OpenKeeps(c: Config, s: Held)
    requires HeldInv(c, s) && c.readers > 0 && CanMove(c, s, OpenAll)
    ensures OpenedInv(c, Do(c, s, OpenAll))
  {
    RoundIsBijective(c, s);
    hide RoundInv, Bijective, EntriesInv, OnceInv, RunsInv, StillHeld;
  }

  lemma LeaveKeeps(c: Config, s: Held, t: nat)
    requires OpenedInv(c, s) && CanMove(c, s, Reader(t))
    ensures OpenedInv(c, MoveReader(c, s, t))
  {
    UnlockKeeps(s.heap, s.round, 0, c.readers, c.callbacks, t);
    assert Unlock(s.heap, c.readers, c.callbacks, s.round, t).log == s.round.log;
    hide RoundInv, Bijective, Unlock;
    SameBijection(c, s.round, Unlock(s.heap, c.readers, c.callbacks, s.round, t), Data(s.heap), []);
  }

  /** The result is about choices, calls and the first nodes only. */
  lemma SameBijection(c: Config, r: Round, r': Round, data: seq<SensorData>, more: seq<SensorData>)
    requires Bijective(c, r, data) && r'.chosen == r.chosen && r'.log == r.log
    ensures Bijective(c, r', data + more) && Bijective(c, r', data)
  {
  }

  lemma GrowKeeps(c: Config, s: Held, datum: SensorData, tag: nat)
    requires OpenedInv(c, s)
    ensures OpenedInv(c, s.(heap := Appended(s.heap, datum, tag)))
  {
    var heap' := Appended(s.heap, datum, tag);
    assert Batch(heap', 0, c.readers);
    HeapGrows(s.heap, heap', s.round, 0, c.readers, c.callbacks);
    AppendedData(s.heap, datum, tag);
    hide RoundInv, Bijective;
    SameBijection(c, s.round, s.round, Data(s.heap), [datum]);
  }

  lemma AppendedData(heap: seq<Node>, datum: SensorData, tag: nat)
    ensures Data(Appended(heap, datum, tag)) == Data(heap) + [datum]
  {
  }

  // ---------------------------------------------------------------- whole rounds

  ghost predicate PlayInv(c: Config, s: Held) {
    HeldInv(c, s) || OpenedInv(c, s)
  }

  lemma DoKeeps(c: Config, s: Held, m: Move)
    requires PlayInv(c, s) && c.readers > 0 && CanMove(c, s, m)
    ensures PlayInv(c, Do(c, s, m))
  {
    var early := HeldInv(c, s);
    match m {
      case Reader(t) =>
        if early { MoveKeeps(c, s, t); } else { LeaveKeeps(c, s, t); }
      case OpenAll =>
        NobodyLeft(c, s);
        OpenKeeps(c, s);
      case Append(datum, tag) =>
        if early { AppendKeeps(c, s, datum, tag); } else { GrowKeeps(c, s, datum, tag); }
    }
  }

  lemma NobodyLeft(c: Config, s: Held)
    requires PlayInv(c, s) && c.readers > 0 && CanMove(c, s, OpenAll)
    ensures HeldInv(c, s)
  {
    var first: nat := 0;
    assert s.pcs[first].AtBarrier?;
  }

  lemma {:induction false} PlayKeeps(c: Config, heap: seq<Node>, moves: seq<Move>)
    requires Batch(heap, 0, c.readers) && c.readers > 0 && Play(c, heap, moves).Some?
    ensures PlayInv(c, Play(c, heap, moves).value)
  {
    if moves != [] {
      var before, m := moves[..|moves| - 1], moves[|moves| - 1];
      hide PlayInv, CanMove, Do;
      PlayKeeps(c, heap, before);
      DoKeeps(c, Play(c, heap, before).value, m);
    }
  }

  /** What the writer appends during the round. */
  function AppendedBy(moves: seq<Move>): seq<SensorData> {
    if moves == [] then []
    else
      var m := moves[|moves| - 1];
      AppendedBy(moves[..|moves| - 1]) + if m.Append? then [m.datum] else []
  }

  /** The nodes keep their data, and each appended node holds its own. */
  lemma {:induction false} PlayData(c: Config, heap: seq<Node>, moves: seq<Move>)
    requires Play(c, heap, moves).Some?
    ensures Data(Play(c, heap, moves).value.heap) == Data(heap) + AppendedBy(moves)
  {
    if moves != [] {
      var before, m := moves[..|moves| - 1], moves[|moves| - 1];
      hide CanMove, MoveReader, Appended;
      PlayData(c, heap, before);
      if m.Append? { AppendedData(Play(c, heap, before).value.heap, m.datum, m.tag); }
    }
  }

  /** The nodes before the last one are as they were, and behind them every node points to the next one. */
  lemma {:induction false} PlayLinks(c: Config, heap: seq<Node>, moves: seq<Move>)
    requires Play(c, heap, moves).Some?
    ensures
      var now := Play(c, heap, moves).value.heap;
      && |now| == |heap| + |AppendedBy(moves)|
      && (forall k :: 0 <= k < |heap| - 1 ==> now[k] == heap[k])
      && forall k :: 0 <= k < |now| - 1 && |heap| - 1 <= k ==> now[k].next == Some(k + 1)
  {
    PlayData(c, heap, moves);
    if moves != [] {
      hide CanMove, MoveReader;
      PlayLinks(c, heap, moves[..|moves| - 1]);
    }
  }

  /**
   From the moment all readers have met at the barrier until the last has left, the readers are in bijection with the
   first `readers` nodes, and every callback has run exactly once on each of these nodes, with its datum.
   */
  lemma HeldRoundIsBijective(c: Config, heap: seq<Node>, moves: seq<Move>)
    requires Batch(heap, 0, c.readers) && c.readers > 0
    requires Play(c, heap, moves).Some? && Met(Play(c, heap, moves).value)
    ensures Bijective(c, Play(c, heap, moves).value.round, Data(heap))
  {
    PlayKeeps(c, heap, moves);
    PlayData(c, heap, moves);
    hide Play, PlayInv, Bijective, Met;
    MetMeansDone(c, Play(c, heap, moves).value);
    FewerData(c, Play(c, heap, moves).value.round, Data(heap), AppendedBy(moves));
  }

  lemma MetMeansDone(c: Config, s: Held)
    requires PlayInv(c, s) && Met(s) && c.readers > 0
    ensures Bijective(c, s.round, Data(s.heap))
  {
    hide Bijective, RoundInv;
    if HeldInv(c, s) { RoundIsBijective(c, s); }
  }

  lemma FewerData(c: Config, r: Round, data: seq<SensorData>, more: seq<SensorData>)
    requires Bijective(c, r, data + more) && |data| >= c.readers
    ensures Bijective(c, r, data)
  {
    hide RanExactlyOnce;
    assert forall node: nat :: node < c.readers ==> (data + more)[node] == data[node];
  }

  /**
   No step of a round faults, some step is possible until all readers have left, and then every node lock and every
   callback lock is free again, as the next round needs them.
   */
  lemma HeldRoundEndsFree(c: Config, heap: seq<Node>, moves: seq<Move>)
    requires Batch(heap, 0, c.readers) && c.readers > 0 && Play(c, heap, moves).Some?
    ensures
      var s := Play(c, heap, moves).value;
      && s.round.fault == Fine
      && ((forall t :: 0 <= t < c.readers ==> s.pcs[t].Gone?)
          || CanMove(c, s, OpenAll) || exists t: nat :: CanMove(c, s, Reader(t)))
      && ((forall t :: 0 <= t < c.readers ==> s.pcs[t].Gone?) ==>
            (forall j :: 0 <= j < c.readers ==> s.round.nodeLock[j] == None)
            && (forall cb :: 0 <= cb < c.callbacks ==> s.round.cbLock[cb] == None))
  {
    var s := Play(c, heap, moves).value;
    PlayKeeps(c, heap, moves);
    hide Play, Bijective;
    SomeMove(c, s);
    if forall t :: 0 <= t < c.readers ==> s.pcs[t].Gone? {
      var first: nat := 0;
      assert s.pcs[first].Gone?;
      RoundIsQuiet(s.heap, s.round, 0, c.readers, c.callbacks);
    }
  }

  lemma SomeMove(c: Config, s: Held)
    requires PlayInv(c, s)
    ensures (forall t :: 0 <= t < c.readers ==> s.pcs[t].Gone?)
      || CanMove(c, s, OpenAll) || exists t: nat :: CanMove(c, s, Reader(t))
  {
    if t: nat :| t < c.readers && (s.pcs[t].Before? || s.pcs[t].Inside? || s.pcs[t].Opened?) {
      assert CanMove(c, s, Reader(t));
    }
  }
}
