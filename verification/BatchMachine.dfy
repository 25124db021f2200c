/**
 The shared buffer of the gateway (`lab_final/sbuffer.c`): one writer and `readers` reader threads over a
 linked list, a counting semaphore, one reader barrier used at three points, and an array of node locks.

 The model is a step machine.  A schedule is a sequence of labels, each naming the thread that performs its
 next atomic action; every interleaving is a schedule.
 */
module BatchMachine {
  import opened Basics
  import opened Heap
  import opened NodeRound

  datatype Config = Config(readers: nat, callbacks: nat)

  /** Control point of a reader: which action of `reader_thread` it performs next. */
  datatype ReaderPC =
    | AtStart                                              // at barrier_rw_startreaders
    | SemWait | Token | AtBar1                             // sem_wait; token held; blocked on the barrier, first use
    | PostBack | ToRound | InRound | ToBar2 | AtBar2       // token handed back; r_lock_node; blocked, second use
    | LoadHead                                             // serial reader, about to read head
    | FreeRead(i: nat, cur: Option<nat>)                   // serial reader, about to read cur->next
    | FreeNode(i: nat, prev: nat, cur: Option<nat>)        // serial reader, about to free prev
    | PutHead(cur: Option<nat>)                            // serial reader, about to write head
    | ToBar3 | AtBar3                                      // blocked, third use

  /** Control point of the writer inside `sbuffer_insert` and `writer_thread`. */
  datatype WriterPC = Idle | Fresh | Tagging | Linking | Stepping | AtStartBarrier | Stopped

  /** `posts`, `commits` and `batches` are history: writer posts, rounds begun, batches freed. */
  datatype State = State(
    heap: seq<Node>, head: Option<nat>, tail: Option<nat>,
    writeIndex: nat, sem: nat, started: bool, writer: WriterPC,
    pcs: seq<ReaderPC>, round: Round,
    posts: nat, commits: nat, batches: nat)

  datatype Label =
    | Produce(datum: SensorData)     // the writer callback delivers a datum; its node is allocated and filled
    | WriterStep                     // the next action of sbuffer_insert
    | WriterReady                    // the writer reaches the start barrier
    | Start                          // the start barrier opens
    | Stop                           // the writer callback reports an error in the main loop
    | ReaderStep(t: nat)
    | Open(serial: nat)              // the reader barrier opens, `serial` is told it is the serial thread

  predicate Blocked(pc: ReaderPC) { pc.AtBar1? || pc.AtBar2? || pc.AtBar3? }

  predicate Inserting(pc: WriterPC) { pc.Fresh? || pc.Tagging? || pc.Linking? || pc.Stepping? }

  predicate WF(c: Config, s: State) {
    && |s.pcs| == c.readers
    && NodeRound.WF(s.round, c.readers, c.callbacks)
    && (forall t :: 0 <= t < c.readers && s.pcs[t].InRound? ==> s.round.stages[t] != Outside)
    && (Inserting(s.writer) ==> |s.heap| > 0)
  }

  function Init(c: Config): (s: State)
    ensures WF(c, s)
  {
    State([], None, None, 0, 0, false, Idle, seq(c.readers, _ => AtStart),
          NodeRound.Idle(c.readers, c.callbacks, SensorData(0, 0.0, 0)), 0, 0, 0)
  }

  predicate Enabled(c: Config, s: State, l: Label)
    requires WF(c, s)
  {
    && s.round.fault == Fine
    && match l
       case Produce(_) => s.writer == Idle && (s.started || |s.heap| < c.readers)
       case WriterStep => Inserting(s.writer)
       case WriterReady => s.writer == Idle && !s.started
       case Start => s.writer == AtStartBarrier && forall t :: 0 <= t < c.readers ==> s.pcs[t] == AtStart
       case Stop => s.writer == Idle && s.started
       case ReaderStep(t) => t < c.readers && !s.pcs[t].AtStart? && !Blocked(s.pcs[t]) && (s.pcs[t].SemWait? ==> s.sem > 0)
       case Open(serial) => serial < c.readers && forall t :: 0 <= t < c.readers ==> Blocked(s.pcs[t])
  }

  function Fail(s: State, f: Fault): State {
    s.(round := s.round.(fault := f))
  }

  /** `sbuffer_insert` after its allocation. */
  function Write(c: Config, s: State): (s': State)
    requires WF(c, s) && Inserting(s.writer)
    ensures WF(c, s')
  {
    var newest := |s.heap| - 1;
    match s.writer
    case Fresh =>
      if s.writeIndex == c.readers then s.(writeIndex := 0, sem := s.sem + 1, posts := s.posts + 1, writer := Tagging)
      else s.(writer := Tagging)
    case Tagging =>
      s.(heap := s.heap[newest := s.heap[newest].(tag := s.writeIndex)], writeIndex := s.writeIndex + 1, writer := Linking)
    case Linking =>
      if s.tail == None then s.(head := Some(newest), tail := Some(newest), writer := Idle)
      else if Check(s.heap, s.tail) != Fine then Fail(s, Check(s.heap, s.tail))
      else
        var last := s.tail.value;
        s.(heap := s.heap[last := s.heap[last].(next := Some(newest))], writer := Stepping)
    case Stepping =>
      if Check(s.heap, s.tail) != Fine then Fail(s, Check(s.heap, s.tail))
      else s.(tail := s.heap[s.tail.value].next, writer := Idle)
    case _ => s
  }

  /** The serial reader's walk that frees the batch. */
  function Reclaim(c: Config, s: State, t: nat): (s': State)
    requires WF(c, s) && t < c.readers
    requires s.pcs[t].LoadHead? || s.pcs[t].FreeRead? || s.pcs[t].FreeNode? || s.pcs[t].PutHead?
    ensures WF(c, s')
  {
    match s.pcs[t]
    case LoadHead =>
      s.(pcs := s.pcs[t := if c.readers > 0 then FreeRead(0, s.head) else PutHead(s.head)])
    case FreeRead(i, cur) =>
      if Check(s.heap, cur) != Fine then Fail(s, Check(s.heap, cur))
      else s.(pcs := s.pcs[t := FreeNode(i, cur.value, s.heap[cur.value].next)])
    case FreeNode(i, prev, cur) =>
      if Check(s.heap, Some(prev)) != Fine then Fail(s, Check(s.heap, Some(prev)))
      else s.(heap := s.heap[prev := s.heap[prev].(live := false)],
              pcs := s.pcs[t := if i + 1 < c.readers then FreeRead(i + 1, cur) else PutHead(cur)])
    case PutHead(cur) =>
      s.(head := cur, batches := s.batches + 1, pcs := s.pcs[t := ToBar3])
  }

  /** A reader inside `r_lock_node`. */
  function Process(c: Config, s: State, t: nat): (s': State)
    requires WF(c, s) && t < c.readers && s.pcs[t].InRound? && s.round.fault == Fine
    ensures WF(c, s')
  {
    if s.round.stages[t].Executed? then
      var round' := Unlock(s.heap, c.readers, c.callbacks, s.round, t);
      s.(round := round', pcs := if round'.fault == Fine then s.pcs[t := ToBar2] else s.pcs)
    else
      s.(round := Act(s.heap, c.readers, c.callbacks, s.round, s.batches, t))
  }

  function Read(c: Config, s: State, t: nat): (s': State)
    requires WF(c, s) && Enabled(c, s, ReaderStep(t))
    ensures WF(c, s')
  {
    var pc := s.pcs[t];
    if pc.SemWait? then s.(sem := s.sem - 1, pcs := s.pcs[t := Token])
    else if pc.Token? then s.(pcs := s.pcs[t := AtBar1])
    else if pc.PostBack? then s.(sem := s.sem + 1, pcs := s.pcs[t := ToRound])
    else if pc.ToRound? then s.(round := Enter(s.round, t, s.head), pcs := s.pcs[t := InRound])
    else if pc.InRound? then Process(c, s, t)
    else if pc.ToBar2? then s.(pcs := s.pcs[t := AtBar2])
    else if pc.ToBar3? then s.(pcs := s.pcs[t := AtBar3])
    else Reclaim(c, s, t)
  }

  /** Where a reader continues when the barrier opens, from its own wait point. */
  function Resume(pc: ReaderPC, serial: bool): ReaderPC {
    match pc
    case AtBar1 => if serial then ToRound else PostBack
    case AtBar2 => if serial then LoadHead else ToBar3
    case AtBar3 => SemWait
    case _ => pc
  }

  function OpenBarrier(c: Config, s: State, serial: nat): (s': State)
    requires WF(c, s) && Enabled(c, s, Open(serial))
    ensures WF(c, s')
  {
    s.(pcs := seq(c.readers, t requires 0 <= t < c.readers => Resume(s.pcs[t], t == serial)),
       commits := if s.pcs[serial].AtBar1? then s.commits + 1 else s.commits)
  }

  function Apply(c: Config, s: State, l: Label): (s': State)
    requires WF(c, s) && Enabled(c, s, l)
    ensures WF(c, s')
  {
    match l
    case Produce(datum) => s.(heap := s.heap + [Node(datum, 0, None, true)], writer := Fresh)
    case WriterStep => Write(c, s)
    case WriterReady => s.(writer := AtStartBarrier)
    case Start => s.(started := true, writer := Idle, pcs := seq(c.readers, _ => SemWait))
    case Stop => s.(writer := Stopped)
    case ReaderStep(t) => Read(c, s, t)
    case Open(serial) => OpenBarrier(c, s, serial)
  }

  /** The state a schedule leads to, or None when some step of it is not enabled. */
  function Run(c: Config, schedule: seq<Label>): (r: Option<State>)
    ensures r.Some? ==> WF(c, r.value)
  {
    if schedule == [] then Some(Init(c))
    else
      var l := schedule[|schedule| - 1];
      match Run(c, schedule[..|schedule| - 1])
      case None => None
      case Some(s) => if Enabled(c, s, l) then Some(Apply(c, s, l)) else None
  }
}
