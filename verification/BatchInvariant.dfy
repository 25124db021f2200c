/** The inductive invariant of the batch protocol and its arithmetic core. */
module BatchInvariant {
  import opened Basics
  import opened Heap
  import opened NodeRound
  import opened BatchMachine

  /** What the readers are doing together.  `Clearing(serial)`: the serial reader is freeing the batch. */
  datatype Phase = Gathering | Processing | Clearing(serial: nat) | Cleared

  predicate HoldsToken(pc: ReaderPC) { pc.Token? || pc.AtBar1? || pc.PostBack? }

  predicate Reclaiming(pc: ReaderPC) { pc.LoadHead? || pc.FreeRead? || pc.FreeNode? || pc.PutHead? }

  predicate MidRound(pc: ReaderPC) { pc.PostBack? || pc.ToRound? || pc.InRound? || pc.ToBar2? || pc.AtBar2? }

  /** First node of batch `b`, which is `b * readers` (FirstNodeIsProduct); recursion keeps the proofs linear. */
  function FirstNode(b: nat, readers: nat): nat { if b == 0 then 0 else FirstNode(b - 1, readers) + readers }

  /** Place of node `k` in its batch, which is `k % readers` (SlotIsMod). */
  function Slot(k: nat, readers: nat): nat
    requires readers > 0
  {
    if k < readers then k else Slot(k - readers, readers)
  }

  /** First node of the batch at the front of the list. */
  function Base(c: Config, s: State): nat { FirstNode(s.batches, c.readers) }

  /** Nodes the writer has linked, and nodes it has tagged. */
  function Linked(s: State): nat {
    if (s.writer.Fresh? || s.writer.Tagging? || s.writer.Linking?) && |s.heap| > 0 then |s.heap| - 1 else |s.heap|
  }

  function Tagged(s: State): nat {
    if (s.writer.Fresh? || s.writer.Tagging?) && |s.heap| > 0 then |s.heap| - 1 else |s.heap|
  }

  /** Token conservation, and the reason a round has its nodes: it starts only when `readers` tokens are out at once. */
  ghost predicate TokenInv(c: Config, s: State) {
    && s.sem + Tally(s.pcs, HoldsToken) + s.commits == s.posts
    && (s.commits > 0 ==> s.posts >= s.commits - 1 + c.readers)
  }

  /** After `k` complete inserts: one post per full batch that has a successor, `index` nodes in the last one. */
  predicate Counted(k: nat, posts: nat, index: nat, readers: nat) {
    if k == 0 then posts == 0 && index == 0
    else k == FirstNode(posts, readers) + index && 1 <= index <= readers
  }

  ghost predicate PostInv(c: Config, s: State) {
    match s.writer
    case Fresh => |s.heap| > 0 && Counted(|s.heap| - 1, s.posts, s.writeIndex, c.readers)
    case Tagging => |s.heap| == FirstNode(s.posts, c.readers) + s.writeIndex + 1 && s.writeIndex < c.readers
    case _ => Counted(|s.heap|, s.posts, s.writeIndex, c.readers)
  }

  ghost predicate WriterInv(c: Config, s: State) {
    && PostInv(c, s)
    && s.tail == (if Linked(s) == 0 then None else Some(if s.writer == Stepping then Linked(s) - 2 else Linked(s) - 1))
    && (s.writer == Stepping ==> |s.heap| >= 2)
    && (s.writer == AtStartBarrier ==> !s.started)
    && (s.writer == Stopped ==> s.started)
    && s.head == (if Linked(s) == 0 then None else Some(Base(c, s)))
  }

  ghost predicate LinkInv(heap: seq<Node>, linked: nat, tagged: nat, readers: nat)
    requires readers > 0
  {
    && linked <= |heap| && tagged <= |heap|
    && (forall k :: 0 <= k < |heap| ==> heap[k].next == if k + 1 < linked then Some(k + 1) else None)
    && (forall k :: 0 <= k < tagged ==> heap[k].tag == Slot(k, readers))
  }

  function FreedCount(c: Config, s: State, ph: Phase): nat {
    Base(c, s) +
    if ph.Clearing? && ph.serial < |s.pcs| then
      match s.pcs[ph.serial]
      case FreeRead(i, _) => i
      case FreeNode(i, _, _) => i
      case PutHead(_) => c.readers
      case _ => 0
    else 0
  }

  ghost predicate LiveInv(heap: seq<Node>, freed: nat) {
    forall k :: 0 <= k < |heap| ==> (heap[k].live <==> freed <= k)
  }

  /** No reader is scanning or executing, and every node lock and callback lock is free. */
  ghost predicate Quiet(r: Round) {
    && r.fault == Fine
    && (forall t :: 0 <= t < |r.stages| ==> r.stages[t] == Outside)
    && (forall j :: 0 <= j < |r.nodeLock| ==> r.nodeLock[j] == None)
    && (forall cb :: 0 <= cb < |r.cbLock| ==> r.cbLock[cb] == None)
  }

  ghost predicate ChosenBefore(chosen: seq<Option<nat>>, base: nat) {
    forall t :: 0 <= t < |chosen| && chosen[t].Some? ==> chosen[t].value < base
  }

  ghost predicate GatherInv(c: Config, s: State)
    requires BatchMachine.WF(c, s)
  {
    && Quiet(s.round)
    && ChosenBefore(s.round.chosen, Base(c, s))
    && s.commits == s.batches
    && forall t :: 0 <= t < c.readers ==>
         if s.started then s.pcs[t].SemWait? || s.pcs[t].Token? || s.pcs[t].AtBar1? else s.pcs[t].AtStart?
  }

  ghost predicate ReaderInv(c: Config, s: State, t: nat)
    requires BatchMachine.WF(c, s) && t < c.readers
  {
    && MidRound(s.pcs[t])
    && (s.pcs[t].InRound? <==> s.round.stages[t] != Outside)
    && (s.pcs[t].PostBack? || s.pcs[t].ToRound? ==> s.round.chosen[t].Some? ==> s.round.chosen[t].value < Base(c, s))
    && (s.pcs[t].ToBar2? || s.pcs[t].AtBar2? ==> s.round.chosen[t].Some? && Base(c, s) <= s.round.chosen[t].value)
  }

  ghost predicate ProcessInv(c: Config, s: State)
    requires BatchMachine.WF(c, s)
  {
    && s.started
    && s.commits == s.batches + 1
    && RoundInv(s.heap, s.round, Base(c, s), c.readers, c.callbacks)
    && forall t :: 0 <= t < c.readers ==> ReaderInv(c, s, t)
  }

  ghost predicate ReclaimInv(c: Config, s: State, pc: ReaderPC) {
    match pc
    case LoadHead => true
    case FreeRead(i, cur) => i < c.readers && cur == Some(Base(c, s) + i)
    case FreeNode(i, prev, cur) => i < c.readers && prev == Base(c, s) + i && cur == Some(Base(c, s) + i + 1)
    case PutHead(cur) => cur == Some(Base(c, s) + c.readers)
    case _ => false
  }

  ghost predicate ClearInv(c: Config, s: State, serial: nat)
    requires BatchMachine.WF(c, s)
  {
    && s.started
    && serial < c.readers
    && s.commits == s.batches + 1
    && Quiet(s.round)
    && AllChose(s.round.chosen, Base(c, s), c.readers)
    && ReclaimInv(c, s, s.pcs[serial])
    && forall t :: 0 <= t < c.readers && t != serial ==> s.pcs[t].ToBar3? || s.pcs[t].AtBar3?
  }

  ghost predicate ClearedInv(c: Config, s: State)
    requires BatchMachine.WF(c, s)
  {
    && s.started
    && s.commits == s.batches
    && Quiet(s.round)
    && ChosenBefore(s.round.chosen, Base(c, s))
    && forall t :: 0 <= t < c.readers ==> s.pcs[t].ToBar3? || s.pcs[t].AtBar3?
  }

  ghost predicate PhaseInv(c: Config, s: State, ph: Phase)
    requires BatchMachine.WF(c, s)
  {
    match ph
    case Gathering => GatherInv(c, s)
    case Processing => ProcessInv(c, s)
    case Clearing(serial) => ClearInv(c, s, serial)
    case Cleared => ClearedInv(c, s)
  }

  ghost predicate ListInv(c: Config, s: State, ph: Phase)
    requires c.readers > 0
  {
    && TokenInv(c, s)
    && WriterInv(c, s)
    && LinkInv(s.heap, Linked(s), Tagged(s), c.readers)
    && LiveInv(s.heap, FreedCount(c, s, ph))
  }

  ghost predicate Inv(c: Config, s: State, ph: Phase) {
    && c.readers >= 2
    && BatchMachine.WF(c, s)
    && ListInv(c, s, ph)
    && PhaseInv(c, s, ph)
  }

  // ---------------------------------------------------------------- arithmetic

  lemma {:induction false} FirstNodeIsProduct(b: nat, readers: nat)
    ensures FirstNode(b, readers) == b * readers
  {
    if b > 0 {
      FirstNodeIsProduct(b - 1, readers);
      assert (b - 1) * readers + readers == b * readers;
    }
  }

  lemma {:induction false} FirstNodeMono(a: nat, b: nat, readers: nat)
    requires a <= b
    ensures FirstNode(a, readers) <= FirstNode(b, readers)
    decreases b
  {
    if a < b {
      FirstNodeMono(a, b - 1, readers);
    }
  }

  lemma {:induction false} SlotInBatch(b: nat, i: nat, readers: nat)
    requires i < readers
    ensures Slot(FirstNode(b, readers) + i, readers) == i
  {
    if b > 0 {
      SlotInBatch(b - 1, i, readers);
    }
  }

  lemma {:induction false} SlotIsMod(k: nat, readers: nat)
    requires readers > 0
    ensures Slot(k, readers) == k % readers
  {
    if k >= readers {
      SlotIsMod(k - readers, readers);
      var q, r := (k - readers) / readers, (k - readers) % readers;
      assert k == (q + 1) * readers + r;
      Quotient(k, q + 1, r, readers);
    }
  }

  lemma Quotient(n: nat, q: nat, r: nat, d: nat)
    requires d > 0 && r < d && n == q * d + r
    ensures q == n / d && r == n % d
  {
    var p, s := n / d, n % d;
    assert n == p * d + s && 0 <= s < d;
    ProductGap(p, q, d);
    ProductGap(q, p, d);
  }

  lemma ProductGap(a: nat, b: nat, d: nat)
    ensures a > b ==> a * d >= b * d + d
  {
    if a > b {
      assert a * d == (a - b - 1) * d + b * d + d;
      assert (a - b - 1) * d >= 0;
    }
  }

  /** Once a round has begun, two whole batches are linked from its base on and `tail` is past the first. */
  lemma Slack(c: Config, s: State)
    requires c.readers >= 2 && TokenInv(c, s) && WriterInv(c, s) && s.commits > 0
    ensures FirstNode(s.commits + 1, c.readers) <= Linked(s)
    ensures s.tail.Some? && FirstNode(s.commits, c.readers) <= s.tail.value
  {
    FirstNodeMono(s.commits + 1, s.posts, c.readers);
  }

  /** Freed nodes are always behind `tail`. */
  lemma TailIsLive(c: Config, s: State, ph: Phase)
    requires Inv(c, s, ph) && (Linked(s) > 0 || s.tail.Some?)
    ensures Check(s.heap, s.tail) == Fine && FreedCount(c, s, ph) <= s.tail.value
    ensures s.writer.Linking? || s.writer.Stepping? ==> |s.heap| >= 2 && s.tail == Some(|s.heap| - 2)
    ensures s.writer.Stepping? ==> s.heap[|s.heap| - 2].next == Some(|s.heap| - 1)
  {
    FirstNodeMono(s.batches, s.commits, c.readers);
    if s.commits > 0 {
      Slack(c, s);
    }
  }

  /** A committed round finds its batch linked, tagged and not freed. */
  lemma BatchReady(c: Config, s: State, ph: Phase)
    requires c.readers >= 2 && TokenInv(c, s) && WriterInv(c, s) && LinkInv(s.heap, Linked(s), Tagged(s), c.readers) && LiveInv(s.heap, FreedCount(c, s, ph))
    requires s.commits == s.batches + 1 && FreedCount(c, s, ph) == Base(c, s)
    ensures Batch(s.heap, Base(c, s), c.readers)
  {
    Slack(c, s);
    forall n | Base(c, s) <= n < Base(c, s) + c.readers
      ensures s.heap[n].live && s.heap[n].tag == n - Base(c, s) && s.heap[n].next == Some(n + 1)
    {
      SlotInBatch(s.batches, n - Base(c, s), c.readers);
    }
  }

  lemma InitInv(c: Config)
    requires c.readers >= 2
    ensures Inv(c, Init(c), Gathering)
  {
    TallyNone(Init(c).pcs, HoldsToken);
  }
}
