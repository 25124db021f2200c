/**
 The two-phase hand-off of `lab8/sbuffer copy v2.c`.  The writer buffers up to `readers + 1` nodes without posting,
 takes the write lock, and then posts once per insert.  Readers remove nodes under a mutex while the write lock is
 held; when it opens they meet at a barrier, all but one exit, and the last one drains the list.

 Nodes are addressed by allocation number; these nodes carry no lock index, so `tag` stays 0.
 `fault == StaleData` stands for a callback run on stale data because `sbuffer_remove` found no node.
 */
module HandoffMachine {
  import opened Basics
  import opened Heap

  /** `sticky`: once the writer's callback has reported the end of its input it keeps reporting it. */
  datatype Config = Config(readers: nat, sticky: bool)

  datatype PC =
    | AtStart
    | TryRead | TryToken | Retry | DropLock(again: bool)                 // the rwlock and semaphore attempts
    | Look(drain: bool) | LockList(drain: bool) | Copy(drain: bool)     // sbuffer_remove up to the copy
    | Advance(drain: bool, datum: SensorData)                           // about to move head
    | UnlockList(drain: bool, node: nat, datum: SensorData)
    | FreeNode(drain: bool, node: nat, datum: SensorData)
    | LockCall(node: nat, datum: SensorData)
    | Invoke(drain: bool, node: nat, datum: SensorData)
    | CountLoad(drain: bool) | CountStore(drain: bool, seen: nat)       // count++ is a load and a store
    | UnlockCall
    | ToBarrier | AtBarrier
    | Measure | Walk(cur: Option<nat>, size: nat)                       // sbuffer_size
    | Exited

  datatype WriterPC = Idle | Linking | Stepping | Posting | AtStartBarrier | Stopped

  datatype Processed = Processed(node: nat, datum: SensorData)

  /** `removed` counts the moves of `head` and `log` the processed data (history). */
  datatype State = State(
    heap: seq<Node>, head: Option<nat>, tail: Option<nat>,
    sem: nat, writeLocked: bool, started: bool, atEnd: bool, writer: WriterPC,
    listLock: Option<nat>, callLock: Option<nat>,
    pcs: seq<PC>, count: nat, fault: Fault,
    posts: nat, removed: nat, log: seq<Processed>)

  datatype Label =
    | Produce(datum: SensorData) | WriterStep | WriterReady | Start | Stop
    | ReaderStep(t: nat) | Open(serial: nat)

  predicate WF(c: Config, s: State) {
    && |s.pcs| == c.readers
    && (s.writer.Linking? || s.writer.Stepping? ==> |s.heap| > 0)
  }

  function Init(c: Config): (s: State)
    ensures WF(c, s)
  {
    State([], None, None, 0, false, false, false, Idle, None, None, seq(c.readers, _ => AtStart), 0, Fine, 0, 0, [])
  }

  predicate Enabled(c: Config, s: State, l: Label)
    requires WF(c, s)
  {
    && s.fault == Fine
    && match l
       case Produce(_) => s.writer == Idle && (if s.started then c.sticky ==> !s.atEnd else |s.heap| < c.readers + 1)
       case WriterStep => s.writer.Linking? || s.writer.Stepping? || s.writer.Posting?
       case WriterReady => s.writer == Idle && !s.started
       case Start => s.writer == AtStartBarrier && forall t :: 0 <= t < c.readers ==> s.pcs[t] == AtStart
       case Stop => s.writer == Idle && s.started
       case ReaderStep(t) =>
         && t < c.readers
         && !s.pcs[t].AtStart? && !s.pcs[t].AtBarrier? && !s.pcs[t].Exited?
         && (s.pcs[t].LockList? ==> s.listLock == None)
         && (s.pcs[t].LockCall? ==> s.callLock == None)
       case Open(serial) => serial < c.readers && forall t :: 0 <= t < c.readers ==> s.pcs[t].AtBarrier?
  }

  function Fail(s: State, f: Fault): State { s.(fault := f) }

  function Write(c: Config, s: State): (s': State)
    requires WF(c, s) && (s.writer.Linking? || s.writer.Stepping? || s.writer.Posting?)
    ensures WF(c, s')
  {
    var newest := |s.heap| - 1;
    if s.writer.Linking? then
      if s.tail == None then
        s.(head := Some(newest), tail := Some(newest), writer := if s.started then Posting else Idle)
      else if Check(s.heap, s.tail) != Fine then Fail(s, Check(s.heap, s.tail))
      else
        var last := s.tail.value;
        s.(heap := s.heap[last := s.heap[last].(next := Some(newest))], writer := Stepping)
    else if s.writer.Stepping? then
      if Check(s.heap, s.tail) != Fine then Fail(s, Check(s.heap, s.tail))
      else s.(tail := s.heap[s.tail.value].next, writer := if s.started then Posting else Idle)
    else
      s.(sem := s.sem + 1, posts := s.posts + 1, writer := Idle)
  }

  function Go(s: State, t: nat, pc: PC): State
    requires t < |s.pcs|
  {
    s.(pcs := s.pcs[t := pc])
  }

  /** `sbuffer_remove`. */
  function Remove(c: Config, s: State, t: nat): (s': State)
    requires WF(c, s) && t < c.readers
    requires s.pcs[t].Look? || s.pcs[t].LockList? || s.pcs[t].Copy? || s.pcs[t].Advance? || s.pcs[t].UnlockList? || s.pcs[t].FreeNode?
    ensures WF(c, s') && s'.writer == s.writer && |s'.heap| == |s.heap|
  {
    match s.pcs[t]
    case Look(drain) => if s.head == None then Fail(s, StaleData) else Go(s, t, LockList(drain))
    case LockList(drain) => Go(s, t, Copy(drain)).(listLock := Some(t))
    case Copy(drain) =>
      if Check(s.heap, s.head) != Fine then Fail(s, Check(s.heap, s.head))
      else Go(s, t, Advance(drain, s.heap[s.head.value].datum))
    case Advance(drain, datum) =>
      if Check(s.heap, s.head) != Fine then Fail(s, Check(s.heap, s.head))
      else Go(s, t, UnlockList(drain, s.head.value, datum)).(head := s.heap[s.head.value].next, removed := s.removed + 1)
    case UnlockList(drain, node, datum) => Go(s, t, FreeNode(drain, node, datum)).(listLock := None)
    case FreeNode(drain, node, datum) =>
      if Check(s.heap, Some(node)) != Fine then Fail(s, Check(s.heap, Some(node)))
      else Go(s, t, if drain then Invoke(true, node, datum) else LockCall(node, datum)).(heap := s.heap[node := s.heap[node].(live := false)])
  }

  /** The callback and the global counter. */
  function Handle(c: Config, s: State, t: nat): (s': State)
    requires WF(c, s) && t < c.readers
    requires s.pcs[t].LockCall? || s.pcs[t].Invoke? || s.pcs[t].CountLoad? || s.pcs[t].CountStore? || s.pcs[t].UnlockCall?
    ensures WF(c, s') && s'.writer == s.writer && |s'.heap| == |s.heap|
  {
    match s.pcs[t]
    case LockCall(node, datum) => Go(s, t, Invoke(false, node, datum)).(callLock := Some(t))
    case Invoke(drain, node, datum) => Go(s, t, CountLoad(drain)).(log := s.log + [Processed(node, datum)])
    case CountLoad(drain) => Go(s, t, CountStore(drain, s.count))
    case CountStore(drain, seen) => Go(s, t, if drain then Measure else UnlockCall).(count := seen + 1)
    case UnlockCall => Go(s, t, TryRead).(callLock := None)
  }

  /** `sbuffer_size`, called by the draining reader. */
  function Size(c: Config, s: State, t: nat): (s': State)
    requires WF(c, s) && t < c.readers && (s.pcs[t].Measure? || s.pcs[t].Walk?)
    ensures WF(c, s') && s'.writer == s.writer && |s'.heap| == |s.heap|
  {
    match s.pcs[t]
    case Measure => Go(s, t, if s.head == None then Exited else Walk(s.head, 0))
    case Walk(cur, size) =>
      if cur == s.tail then Go(s, t, Look(true))         // the size is size + 1 > 0
      else if Check(s.heap, cur) != Fine then Fail(s, Check(s.heap, cur))
      else Go(s, t, Walk(s.heap[cur.value].next, size + 1))
  }

  /** The attempts at the write lock and the semaphore. */
  function Attempt(c: Config, s: State, t: nat): (s': State)
    requires WF(c, s) && t < c.readers
    requires s.pcs[t].TryRead? || s.pcs[t].TryToken? || s.pcs[t].Retry? || s.pcs[t].DropLock? || s.pcs[t].ToBarrier?
    ensures WF(c, s') && s'.writer == s.writer && |s'.heap| == |s.heap|
  {
    match s.pcs[t]
    case TryRead => Go(s, t, if s.writeLocked then TryToken else DropLock(false))
    case TryToken => if s.sem > 0 then Go(s, t, Look(false)).(sem := s.sem - 1) else Go(s, t, Retry)
    case Retry => Go(s, t, if s.writeLocked then TryRead else DropLock(true))
    case DropLock(again) => Go(s, t, if again then TryRead else ToBarrier)
    case ToBarrier => Go(s, t, AtBarrier)
  }

  predicate Attempting(pc: PC) { pc.TryRead? || pc.TryToken? || pc.Retry? || pc.DropLock? || pc.ToBarrier? }

  predicate Removing(pc: PC) { pc.Look? || pc.LockList? || pc.Copy? || pc.Advance? || pc.UnlockList? || pc.FreeNode? }

  predicate Measuring(pc: PC) { pc.Measure? || pc.Walk? }

  function Read(c: Config, s: State, t: nat): (s': State)
    requires WF(c, s) && Enabled(c, s, ReaderStep(t))
    ensures WF(c, s') && s'.writer == s.writer && |s'.heap| == |s.heap|
  {
    if Attempting(s.pcs[t]) then Attempt(c, s, t)
    else if Removing(s.pcs[t]) then Remove(c, s, t)
    else if Measuring(s.pcs[t]) then Size(c, s, t)
    else Handle(c, s, t)
  }

  function Apply(c: Config, s: State, l: Label): (s': State)
    requires WF(c, s) && Enabled(c, s, l)
    ensures WF(c, s')
  {
    match l
    case Produce(datum) => s.(heap := s.heap + [Node(datum, 0, None, true)], writer := Linking)
    case WriterStep => Write(c, s)
    // leaving the first loop before it has its nodes means that the callback reported the end
    case WriterReady => s.(writer := AtStartBarrier, writeLocked := true, atEnd := |s.heap| < c.readers + 1)
    case Start => s.(started := true, writer := Idle, pcs := seq(c.readers, _ => TryRead))
    case Stop => s.(writer := Stopped, writeLocked := false)
    case ReaderStep(t) => Read(c, s, t)
    case Open(serial) => s.(pcs := seq(c.readers, t => if t == serial then Measure else Exited))
  }

  function Run(c: Config, schedule: seq<Label>): (r: Option<State>)
    ensures r.Some? ==> WF(c, r.value)
  {
    if schedule == [] then Some(Init(c))
    else
      var l := schedule[|schedule| - 1];
      match Run(c, schedule[..|schedule| - 1])
      case None => None
      case Some(s) => if Enabled(c, s, l) then Some(Apply(c, s, l)) else None
  }
}
