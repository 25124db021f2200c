/**
 One round of readers working on a batch of nodes: every reader walks the node locks until a trylock
 succeeds, then keeps sweeping over the callbacks until it has run each of them on its node.

 A step that dereferences NULL or a freed node, or that reaches the "Design error" exit, sets `fault`; nothing runs
 after that.
 */
module NodeRound {
  import opened Basics
  import opened Heap

  /** Where a reader is inside the callback sweep. */
  datatype Spot = Sweep | Load | Call | Release

  datatype Stage =
    | Outside
    | Scanning(idx: nat, cur: Option<nat>)                                          // about to trylock the lock of `cur`
    | Advancing(idx: nat, node: nat)                                                // lock was busy, about to follow `next`
    | Executing(node: nat, cb: nat, flags: seq<bool>, left: int, spot: Spot)
    | Executed(node: nat)                                                           // all callbacks run, node lock still held

  /** One callback invocation, with the datum the callback found in its argument buffer. */
  datatype Invocation = Invocation(round: nat, reader: nat, cb: nat, node: nat, datum: SensorData)

  /**
   `chosen[t]` remembers the node reader `t` locked last (history, read by no step);
   `log` is the sequence of callback invocations so far.
   */
  datatype Round = Round(
    stages: seq<Stage>,
    nodeLock: seq<Option<nat>>,
    cbLock: seq<Option<nat>>,
    args: seq<SensorData>,
    chosen: seq<Option<nat>>,
    log: seq<Invocation>,
    fault: Fault)

  predicate WFStage(st: Stage, callbacks: nat) {
    st.Executing? ==>
      && |st.flags| == callbacks
      && st.cb <= callbacks
      && (st.spot != Sweep ==> st.cb < callbacks)
  }

  predicate WF(r: Round, readers: nat, callbacks: nat) {
    && |r.stages| == |r.nodeLock| == |r.chosen| == readers
    && |r.cbLock| == |r.args| == callbacks
    && forall t :: 0 <= t < readers ==> WFStage(r.stages[t], callbacks)
  }

  function Idle(readers: nat, callbacks: nat, blank: SensorData): (r: Round)
    ensures WF(r, readers, callbacks)
  {
    Round(seq(readers, _ => Outside), seq(readers, _ => None), seq(callbacks, _ => None),
          seq(callbacks, _ => blank), seq(readers, _ => None), [], Fine)
  }

  /** A reader enters the round and reads the list head. */
  function Enter(r: Round, t: nat, head: Option<nat>): Round
    requires t < |r.stages| == |r.chosen|
  {
    r.(stages := r.stages[t := Scanning(0, head)], chosen := r.chosen[t := None])
  }

  /** The scan of the lock array. */
  function Scan(heap: seq<Node>, readers: nat, callbacks: nat, r: Round, t: nat): (r': Round)
    requires WF(r, readers, callbacks) && t < readers
    requires r.stages[t].Scanning? || r.stages[t].Advancing?
    ensures WF(r', readers, callbacks)
  {
    match r.stages[t]
    case Scanning(idx, cur) =>
      if idx >= readers then r.(fault := DesignError)
      else if Check(heap, cur) != Fine then r.(fault := Check(heap, cur))
      else
        var node := cur.value;
        var lock := heap[node].tag;
        if lock >= readers then r.(fault := UseAfterFree)
        else if r.nodeLock[lock] == None then
          r.(nodeLock := r.nodeLock[lock := Some(t)],
             chosen := r.chosen[t := Some(node)],
             stages := r.stages[t := Executing(node, 0, seq(callbacks, _ => false), callbacks, Sweep)])
        else
          r.(stages := r.stages[t := Advancing(idx, node)])
    case Advancing(idx, node) =>
      if Check(heap, Some(node)) != Fine then r.(fault := Check(heap, Some(node)))
      else r.(stages := r.stages[t := Scanning(idx + 1, heap[node].next)])
  }

  /** One step of the callback sweep. */
  function Execute(heap: seq<Node>, readers: nat, callbacks: nat, r: Round, round: nat, t: nat): (r': Round)
    requires WF(r, readers, callbacks) && t < readers && r.stages[t].Executing?
    ensures WF(r', readers, callbacks)
  {
    var st := r.stages[t];
    match st.spot
    case Sweep =>
      if st.cb == callbacks then
        r.(stages := r.stages[t := if st.left == 0 then Executed(st.node) else st.(cb := 0)])
      else if st.flags[st.cb] || r.cbLock[st.cb] != None then
        r.(stages := r.stages[t := st.(cb := st.cb + 1)])
      else
        r.(cbLock := r.cbLock[st.cb := Some(t)], stages := r.stages[t := st.(spot := Load)])
    case Load =>
      if Check(heap, Some(st.node)) != Fine then r.(fault := Check(heap, Some(st.node)))
      else r.(args := r.args[st.cb := heap[st.node].datum], stages := r.stages[t := st.(spot := Call)])
    case Call =>
      r.(log := r.log + [Invocation(round, t, st.cb, st.node, r.args[st.cb])],
         stages := r.stages[t := st.(flags := st.flags[st.cb := true], left := st.left - 1, spot := Release)])
    case Release =>
      r.(cbLock := r.cbLock[st.cb := None], stages := r.stages[t := st.(cb := st.cb + 1, spot := Sweep)])
  }

  /** One step of reader `t` up to the return of the callback sweep. */
  function Act(heap: seq<Node>, readers: nat, callbacks: nat, r: Round, round: nat, t: nat): (r': Round)
    requires WF(r, readers, callbacks) && t < readers
    requires r.stages[t].Scanning? || r.stages[t].Advancing? || r.stages[t].Executing?
    ensures WF(r', readers, callbacks)
  {
    if r.stages[t].Executing? then Execute(heap, readers, callbacks, r, round, t)
    else Scan(heap, readers, callbacks, r, t)
  }

  /** The reader gives its node lock back and is done with the round. */
  function Unlock(heap: seq<Node>, readers: nat, callbacks: nat, r: Round, t: nat): (r': Round)
    requires WF(r, readers, callbacks) && t < readers && r.stages[t].Executed?
    ensures WF(r', readers, callbacks)
  {
    var node := r.stages[t].node;
    if Check(heap, Some(node)) != Fine then r.(fault := Check(heap, Some(node)))
    else if heap[node].tag >= readers then r.(fault := UseAfterFree)
    else r.(nodeLock := r.nodeLock[heap[node].tag := None], stages := r.stages[t := Outside])
  }

  // ---------------------------------------------------------------- what holds during a round

  /** The batch that starts at node `base` is linked, tagged `0 .. readers - 1` and not freed. */
  ghost predicate Batch(heap: seq<Node>, base: nat, readers: nat) {
    && base + readers <= |heap|
    && forall n :: base <= n < base + readers ==>
         heap[n].live && heap[n].tag == n - base && (n + 1 < base + readers ==> heap[n].next == Some(n + 1))
  }

  /** Some reader has chosen each of the nodes `from .. to`. */
  ghost predicate Covered(chosen: seq<Option<nat>>, from: nat, to: nat) {
    forall n: nat :: from <= n < to ==> Some(n) in chosen
  }

  function Unset(flags: seq<bool>): nat {
    if flags == [] then 0 else Unset(flags[..|flags| - 1]) + if flags[|flags| - 1] then 0 else 1
  }

  ghost predicate Holds(st: Stage, node: nat) {
    (st.Executing? || st.Executed?) && st.node == node
  }

  ghost predicate InCallback(st: Stage, cb: nat) {
    st.Executing? && st.cb == cb && st.spot != Sweep
  }

  ghost predicate HolderInv(r: Round, base: nat, readers: nat, t: nat, node: nat)
    requires |r.nodeLock| == |r.chosen| == readers && t < readers
  {
    && base <= node < base + readers
    && r.chosen[t] == Some(node)
    && r.nodeLock[node - base] == Some(t)
  }

  /** The code keeps `exec_left` equal to the number of unset flags and the argument buffer to itself. */
  ghost predicate SweepInv(heap: seq<Node>, r: Round, t: nat, st: Stage)
    requires st.Executing? && WFStage(st, |r.cbLock|) && |r.args| == |r.cbLock|
    requires st.node < |heap|
  {
    && st.left == Unset(st.flags)
    && (st.spot != Sweep ==> r.cbLock[st.cb] == Some(t))
    && (st.spot == Load || st.spot == Call ==> !st.flags[st.cb])
    && (st.spot == Release ==> st.flags[st.cb])
    && (st.spot == Call ==> r.args[st.cb] == heap[st.node].datum)
  }

  ghost predicate StageInv(heap: seq<Node>, r: Round, base: nat, readers: nat, callbacks: nat, t: nat)
    requires WF(r, readers, callbacks) && t < readers && base + readers <= |heap|
  {
    match r.stages[t]
    case Outside => true
    case Scanning(idx, cur) =>
      idx < readers && cur == Some(base + idx) && r.chosen[t] == None && Covered(r.chosen, base, base + idx)
    case Advancing(idx, node) =>
      idx < readers && node == base + idx && r.chosen[t] == None && Covered(r.chosen, base, base + idx + 1)
    case Executing(node, _, _, _, _) =>
      HolderInv(r, base, readers, t, node) && SweepInv(heap, r, t, r.stages[t])
    case Executed(node) =>
      HolderInv(r, base, readers, t, node)
  }

  ghost predicate LocksInv(r: Round, base: nat, readers: nat, callbacks: nat)
    requires WF(r, readers, callbacks)
  {
    && (forall j :: 0 <= j < readers && r.nodeLock[j].Some? ==>
          r.nodeLock[j].value < readers && Holds(r.stages[r.nodeLock[j].value], base + j))
    && (forall c :: 0 <= c < callbacks && r.cbLock[c].Some? ==>
          r.cbLock[c].value < readers && InCallback(r.stages[r.cbLock[c].value], c))
  }

  /** Nobody has chosen a node past the batch, and the chosen nodes of the batch have no gap. */
  ghost predicate PrefixInv(chosen: seq<Option<nat>>, base: nat, readers: nat) {
    forall t :: 0 <= t < |chosen| && chosen[t].Some? ==>
      chosen[t].value < base + readers && Covered(chosen, base, chosen[t].value)
  }

  ghost predicate RoundInv(heap: seq<Node>, r: Round, base: nat, readers: nat, callbacks: nat) {
    && Batch(heap, base, readers)
    && WF(r, readers, callbacks)
    && r.fault == Fine
    && (forall t :: 0 <= t < readers ==> StageInv(heap, r, base, readers, callbacks, t))
    && LocksInv(r, base, readers, callbacks)
    && PrefixInv(r.chosen, base, readers)
  }

  // ---------------------------------------------------------------- preservation

  lemma {:induction false} UnsetSet(flags: seq<bool>, i: nat)
    requires i < |flags| && !flags[i]
    ensures Unset(flags[i := true]) == Unset(flags) - 1
  {
    var last := |flags| - 1;
    if i == last {
      assert flags[i := true][..last] == flags[..last];
    } else {
      assert flags[i := true][..last] == flags[..last][i := true];
      UnsetSet(flags[..last], i);
    }
  }

  lemma {:induction false} UnsetNone(n: nat)
    ensures Unset(seq(n, _ => false)) == n
  {
    if n > 0 {
      assert seq(n, _ => false)[..n - 1] == seq(n - 1, _ => false);
      UnsetNone(n - 1);
    }
  }

  lemma {:induction false} UnsetZero(flags: seq<bool>)
    requires Unset(flags) == 0
    ensures forall c :: 0 <= c < |flags| ==> flags[c]
  {
    if flags != [] {
      UnsetZero(flags[..|flags| - 1]);
    }
  }

  /** A reader that chooses a node keeps everything that was covered. */
  lemma CoveredGrows(chosen: seq<Option<nat>>, t: nat, node: nat, from: nat, to: nat)
    requires t < |chosen| && chosen[t] == None && Covered(chosen, from, to)
    ensures Covered(chosen[t := Some(node)], from, to)
  {
    forall n: nat | from <= n < to ensures Some(n) in chosen[t := Some(node)] {
      KeepsMention(chosen, t, Some(node), Some(n));
    }
  }

  /** The other readers choose at most one node each, so a scanning reader never runs out of locks. */
  lemma ScanRoom(chosen: seq<Option<nat>>, t: nat, base: nat, idx: nat)
    requires t < |chosen| && chosen[t] == None && idx < |chosen| && Covered(chosen, base, base + idx + 1)
    ensures idx + 1 < |chosen|
  {
    var rest := chosen[..t] + chosen[t + 1..];
    Pigeonhole(rest, base, |chosen|);
    var v: nat :| base <= v < base + |chosen| && Some(v) !in rest;
    assert chosen == chosen[..t] + [None] + chosen[t + 1..];
    assert Some(v) !in chosen;
  }

  lemma EnterKeeps(heap: seq<Node>, r: Round, base: nat, readers: nat, callbacks: nat, t: nat)
    requires RoundInv(heap, r, base, readers, callbacks) && t < readers
    requires r.stages[t] == Outside && (r.chosen[t].Some? ==> r.chosen[t].value < base)
    ensures RoundInv(heap, Enter(r, t, Some(base)), base, readers, callbacks)
  {
    var r' := Enter(r, t, Some(base));
    forall from, to: nat | base <= from && Covered(r.chosen, from, to) ensures Covered(r'.chosen, from, to) {
      forall n: nat | from <= n < to ensures Some(n) in r'.chosen {
        KeepsMention(r.chosen, t, None, Some(n));
      }
    }
    forall u | 0 <= u < readers ensures StageInv(heap, r', base, readers, callbacks, u) {
      assert StageInv(heap, r, base, readers, callbacks, u);
    }
  }

  lemma ScanKeeps(heap: seq<Node>, r: Round, base: nat, readers: nat, callbacks: nat, t: nat)
    requires RoundInv(heap, r, base, readers, callbacks) && t < readers
    requires r.stages[t].Scanning? || r.stages[t].Advancing?
    ensures RoundInv(heap, Scan(heap, readers, callbacks, r, t), base, readers, callbacks)
  {
    var r' := Scan(heap, readers, callbacks, r, t);
    assert StageInv(heap, r, base, readers, callbacks, t);
    if r.stages[t].Advancing? {
      ScanRoom(r.chosen, t, base, r.stages[t].idx);
      SameChoices(heap, r, r', base, readers, callbacks, t);
    } else {
      var idx, node := r.stages[t].idx, r.stages[t].cur.value;
      if r.nodeLock[idx] == None {
        TakeNodeKeeps(heap, r, base, readers, callbacks, t);
      } else {
        var u := r.nodeLock[idx].value;
        assert StageInv(heap, r, base, readers, callbacks, u);
        assert r.chosen[u] == Some(node);
        SameChoices(heap, r, r', base, readers, callbacks, t);
      }
    }
  }

  /** A step that changes only the stage of a reader outside the execution part. */
  lemma SameChoices(heap: seq<Node>, r: Round, r': Round, base: nat, readers: nat, callbacks: nat, t: nat)
    requires RoundInv(heap, r, base, readers, callbacks) && t < readers
    requires r.stages[t].Scanning? || r.stages[t].Advancing?
    requires WF(r', readers, callbacks) && r' == r.(stages := r'.stages) && r'.stages == r.stages[t := r'.stages[t]]
    requires StageInv(heap, r', base, readers, callbacks, t)
    ensures RoundInv(heap, r', base, readers, callbacks)
  {
    forall u | 0 <= u < readers ensures StageInv(heap, r', base, readers, callbacks, u) {
      assert StageInv(heap, r, base, readers, callbacks, u);
    }
  }

  lemma TakeNodeKeeps(heap: seq<Node>, r: Round, base: nat, readers: nat, callbacks: nat, t: nat)
    requires RoundInv(heap, r, base, readers, callbacks) && t < readers
    requires r.stages[t].Scanning? && r.stages[t].idx < readers && r.nodeLock[r.stages[t].idx] == None
    ensures RoundInv(heap, Scan(heap, readers, callbacks, r, t), base, readers, callbacks)
  {
    var r' := Scan(heap, readers, callbacks, r, t);
    assert StageInv(heap, r, base, readers, callbacks, t);
    var node := r.stages[t].cur.value;
    UnsetNone(callbacks);
    forall from: nat, to: nat | Covered(r.chosen, from, to) ensures Covered(r'.chosen, from, to) {
      CoveredGrows(r.chosen, t, node, from, to);
    }
    forall u | 0 <= u < readers ensures StageInv(heap, r', base, readers, callbacks, u) {
      if u != t { TakenElsewhere(heap, r, r', base, readers, callbacks, t, u); }
    }
    hide StageInv, Unset;
    assert PrefixInv(r'.chosen, base, readers);
    assert LocksInv(r', base, readers, callbacks);
  }

  /** A reader that takes a free node lock leaves the others as they were. */
  lemma TakenElsewhere(heap: seq<Node>, r: Round, r': Round, base: nat, readers: nat, callbacks: nat, t: nat, u: nat)
    requires RoundInv(heap, r, base, readers, callbacks) && WF(r', readers, callbacks) && t < readers && u < readers && u != t
    requires r'.stages[u] == r.stages[u] && r'.chosen[u] == r.chosen[u] && r'.cbLock == r.cbLock && r'.args == r.args
    requires forall j :: 0 <= j < readers && r.nodeLock[j].Some? ==> r'.nodeLock[j] == r.nodeLock[j]
    requires forall from: nat, to: nat :: Covered(r.chosen, from, to) ==> Covered(r'.chosen, from, to)
    ensures StageInv(heap, r', base, readers, callbacks, u)
  {
    hide Covered, LocksInv, PrefixInv;
    assert StageInv(heap, r, base, readers, callbacks, u);
  }

  /** The executing reader `t` moved on; the callback locks and argument buffers of the others did not. */
  lemma SweepStepKeeps(heap: seq<Node>, r: Round, r': Round, base: nat, readers: nat, callbacks: nat, t: nat)
    requires RoundInv(heap, r, base, readers, callbacks) && t < readers && r.stages[t].Executing?
    requires WF(r', readers, callbacks) && r'.fault == Fine
    requires r'.nodeLock == r.nodeLock && r'.chosen == r.chosen && r'.stages == r.stages[t := r'.stages[t]]
    requires Holds(r'.stages[t], r.stages[t].node)
    requires r.stages[t].node < |heap| && (r'.stages[t].Executing? ==> SweepInv(heap, r', t, r'.stages[t]))
    requires forall c :: 0 <= c < callbacks && r'.cbLock[c] != r.cbLock[c] ==> r.cbLock[c] in {None, Some(t)} && r'.cbLock[c] in {None, Some(t)}
    requires forall c :: 0 <= c < callbacks && r'.args[c] != r.args[c] ==> r.cbLock[c] == Some(t)
    requires forall c :: 0 <= c < callbacks && r'.cbLock[c] == Some(t) ==> InCallback(r'.stages[t], c)
    ensures RoundInv(heap, r', base, readers, callbacks)
  {
    assert StageInv(heap, r, base, readers, callbacks, t);
    forall u | 0 <= u < readers ensures StageInv(heap, r', base, readers, callbacks, u) {
      assert StageInv(heap, r, base, readers, callbacks, u);
    }
    assert LocksInv(r', base, readers, callbacks);
  }

  lemma ExecuteKeeps(heap: seq<Node>, r: Round, base: nat, readers: nat, callbacks: nat, round: nat, t: nat)
    requires RoundInv(heap, r, base, readers, callbacks) && t < readers && r.stages[t].Executing?
    ensures RoundInv(heap, Execute(heap, readers, callbacks, r, round, t), base, readers, callbacks)
  {
    var r' := Execute(heap, readers, callbacks, r, round, t);
    var st := r.stages[t];
    assert StageInv(heap, r, base, readers, callbacks, t);
    assert SweepInv(heap, r, t, st);
    match st.spot {
      case Sweep =>
      case Load =>
      case Call => UnsetSet(st.flags, st.cb);
      case Release =>
    }
    SweepStepKeeps(heap, r, r', base, readers, callbacks, t);
  }

  lemma UnlockKeeps(heap: seq<Node>, r: Round, base: nat, readers: nat, callbacks: nat, t: nat)
    requires RoundInv(heap, r, base, readers, callbacks) && t < readers && r.stages[t].Executed?
    ensures RoundInv(heap, Unlock(heap, readers, callbacks, r, t), base, readers, callbacks)
    ensures var r' := Unlock(heap, readers, callbacks, r, t);
      && r'.stages == r.stages[t := Outside] && r'.chosen == r.chosen
      && r.chosen[t].Some? && base <= r.chosen[t].value
  {
    var r' := Unlock(heap, readers, callbacks, r, t);
    assert StageInv(heap, r, base, readers, callbacks, t);
    forall u | 0 <= u < readers ensures StageInv(heap, r', base, readers, callbacks, u) {
      assert StageInv(heap, r, base, readers, callbacks, u);
    }
  }

  /** A step inside the round keeps its invariant and touches no other reader's stage or choice. */
  lemma ActKeeps(heap: seq<Node>, r: Round, base: nat, readers: nat, callbacks: nat, round: nat, t: nat)
    requires RoundInv(heap, r, base, readers, callbacks) && t < readers
    requires r.stages[t].Scanning? || r.stages[t].Advancing? || r.stages[t].Executing?
    ensures var r' := Act(heap, readers, callbacks, r, round, t);
      && RoundInv(heap, r', base, readers, callbacks)
      && r'.stages[t] != Outside
      && forall u :: 0 <= u < readers && u != t ==> r'.stages[u] == r.stages[u] && r'.chosen[u] == r.chosen[u]
  {
    if r.stages[t].Executing? {
      ExecuteKeeps(heap, r, base, readers, callbacks, round, t);
    } else {
      ScanKeeps(heap, r, base, readers, callbacks, t);
    }
  }

  /** Appending to or relinking the list behind the batch does not disturb the round. */
  lemma HeapGrows(heap: seq<Node>, heap': seq<Node>, r: Round, base: nat, readers: nat, callbacks: nat)
    requires RoundInv(heap, r, base, readers, callbacks) && Batch(heap', base, readers)
    requires forall n :: base <= n < base + readers ==> heap'[n].datum == heap[n].datum
    ensures RoundInv(heap', r, base, readers, callbacks)
  {
    forall u | 0 <= u < readers ensures StageInv(heap', r, base, readers, callbacks, u) {
      assert StageInv(heap, r, base, readers, callbacks, u);
    }
  }

  // ---------------------------------------------------------------- what a finished round has done

  /** Every reader has locked a node of the batch. */
  ghost predicate AllChose(chosen: seq<Option<nat>>, base: nat, readers: nat) {
    && |chosen| == readers
    && PrefixInv(chosen, base, readers)
    && forall t :: 0 <= t < readers ==> chosen[t].Some? && base <= chosen[t].value
  }

  /** The nodes processed in a round are the first `m` of the batch. */
  ghost predicate ProcessedPrefix(chosen: seq<Option<nat>>, base: nat, m: nat) {
    forall n: nat :: base <= n ==> (Some(n) in chosen <==> n < base + m)
  }

  /**
   A finished round has processed a non-empty prefix of its batch, and it has processed the whole batch
   exactly when no two readers took the same node.
   */
  lemma RoundOutcome(chosen: seq<Option<nat>>, base: nat, readers: nat) returns (m: nat)
    requires readers > 0 && AllChose(chosen, base, readers)
    ensures 1 <= m <= readers && ProcessedPrefix(chosen, base, m)
    ensures m == readers <==> Distinct(chosen)
  {
    m := 1;
    Smallest(chosen, base);
    while m < readers && Some(base + m) in chosen
      invariant 1 <= m <= readers && Covered(chosen, base, base + m)
    {
      m := m + 1;
    }
    assert m == readers || Some(base + m) !in chosen;
    assert forall n: nat :: base + m <= n ==> Some(n) !in chosen;
    if m < readers && Distinct(chosen) {
      FewValues(chosen, base, m);
      assert false;
    }
    if m == readers && !Distinct(chosen) {
      var t, u :| 0 <= t < u < |chosen| && chosen[t] == chosen[u];
      Repeated(chosen, t, u, base);
    }
  }

  lemma Smallest(chosen: seq<Option<nat>>, base: nat)
    requires |chosen| > 0 && AllChose(chosen, base, |chosen|)
    ensures Covered(chosen, base, base + 1)
  {
    assert chosen[0].Some? && Covered(chosen, base, chosen[0].value);
  }

  lemma Repeated(chosen: seq<Option<nat>>, t: nat, u: nat, base: nat)
    requires t < u < |chosen| && chosen[t] == chosen[u]
    ensures !Covered(chosen, base, base + |chosen|)
  {
    var rest := chosen[..u] + chosen[u + 1..];
    Pigeonhole(rest, base, |chosen|);
    var v: nat :| base <= v < base + |chosen| && Some(v) !in rest;
    assert rest[t] == chosen[u];
    assert chosen == chosen[..u] + [chosen[u]] + chosen[u + 1..];
    assert Some(v) !in chosen;
  }
}
