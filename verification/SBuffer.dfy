/**
 The list of the shared buffer (`lab_final/sbuffer.c`) as the linked structure it is, updated in place by the
 functions of one thread at a time, and the two loops of the writer that fill it.  How the threads interleave is the
 subject of `BatchMachine`.
 */
module SBuffer {
  import opened Basics
  import opened BatchInvariant

  datatype Status = Success | Failure

  class Cell {
    var data: SensorData
    var rbIndex: nat
    var next: Cell?

    constructor (data: SensorData)
      ensures this.data == data && next == null
    {
      this.data, rbIndex, next := data, 0, null;
    }
  }

  class Buffer {
    const noReaders: nat
    var head: Cell?
    var tail: Cell?
    var writeLaIndex: nat
    var posts: nat               // posts on semaphore_rw_buffercount so far
    ghost var spine: seq<Cell>
    ghost var contents: seq<SensorData>
    ghost var removed: nat       // nodes removed so far

    ghost predicate Valid()
      reads this, spine
    {
      && noReaders > 0
      && Linked()
      && Numbered(spine, removed, noReaders)
      && Counted(removed + |spine|, posts, writeLaIndex, noReaders)
    }

    ghost predicate Linked()
      reads this, spine
    {
      && head == (if spine == [] then null else spine[0])
      && tail == (if spine == [] then null else spine[|spine| - 1])
      && (forall i {:trigger spine[i].next} :: 0 <= i < |spine| ==> spine[i].next == if i == |spine| - 1 then null else spine[i + 1])
      && (forall i, j :: 0 <= i < j < |spine| ==> spine[i] != spine[j])
      && |contents| == |spine|
      && (forall i {:trigger spine[i].data} {:trigger contents[i]} :: 0 <= i < |spine| ==> spine[i].data == contents[i])
    }

    /** `sbuffer_init`. */
    constructor (noReaders: nat)
      requires noReaders > 0
      ensures Valid() && this.noReaders == noReaders && contents == [] && removed == 0
    {
      this.noReaders := noReaders;
      head, tail, writeLaIndex, posts := null, null, 0, 0;
      spine, contents, removed := [], [], 0;
    }
  }

  /** Every node carries its place in its batch. */
  ghost predicate Numbered(spine: seq<Cell>, removed: nat, readers: nat)
    reads spine
    requires readers > 0
  {
    forall i {:trigger spine[i].rbIndex} :: 0 <= i < |spine| ==> spine[i].rbIndex == Slot(removed + i, readers)
  }

  /** After n inserts there were (n - 1) / R posts. */
  lemma PostsSoFar(inserted: nat, posts: nat, index: nat, readers: nat)
    requires readers > 0 && inserted > 0 && Counted(inserted, posts, index, readers)
    ensures posts == (inserted - 1) / readers
  {
    FirstNodeIsProduct(posts, readers);
    assert inserted - 1 == posts * readers + (index - 1) && 0 <= index - 1 < readers;
    Quotient(inserted - 1, posts, index - 1, readers);
  }

  ghost function Cells(buffer: Buffer?): set<object>
    reads buffer
  {
    if buffer == null then {} else set c | c in buffer.spine
  }

  /** The first half of an insert: the counter wraps after a full batch, and only then is the batch posted. */
  method NextIndex(buffer: Buffer) returns (index: nat)
    requires buffer.noReaders > 0 && Counted(buffer.removed + |buffer.spine|, buffer.posts, buffer.writeLaIndex, buffer.noReaders)
    modifies buffer`writeLaIndex, buffer`posts
    ensures index == Slot(buffer.removed + |buffer.spine|, buffer.noReaders)
    ensures Counted(buffer.removed + |buffer.spine| + 1, buffer.posts, buffer.writeLaIndex, buffer.noReaders)
  {
    TagOfNext(buffer.removed + |buffer.spine|, buffer.posts, buffer.writeLaIndex, buffer.noReaders);
    if buffer.writeLaIndex == buffer.noReaders {
      buffer.writeLaIndex := 0;
      buffer.posts := buffer.posts + 1;
    }
    index := buffer.writeLaIndex;
    buffer.writeLaIndex := buffer.writeLaIndex + 1;
  }

  /** The second half: the node is linked at the end. */
  method Link(buffer: Buffer, dummy: Cell)
    requires buffer.Linked() && dummy !in buffer.spine && dummy.next == null
    requires buffer.noReaders > 0 && Numbered(buffer.spine, buffer.removed, buffer.noReaders)
    requires dummy.rbIndex == Slot(buffer.removed + |buffer.spine|, buffer.noReaders)
    modifies buffer`head, buffer`tail, buffer`spine, buffer`contents, buffer.spine
    ensures buffer.Linked()
    ensures buffer.spine == old(buffer.spine) + [dummy] && buffer.contents == old(buffer.contents) + [dummy.data]
    ensures Numbered(buffer.spine, buffer.removed, buffer.noReaders)
  {
    hide Slot;
    if buffer.tail == null {
      buffer.head, buffer.tail := dummy, dummy;
    } else {
      buffer.tail.next := dummy;
      buffer.tail := buffer.tail.next;
    }
    buffer.spine := buffer.spine + [dummy];
    buffer.contents := buffer.contents + [dummy.data];
  }

  method Insert(buffer: Buffer?, data: SensorData) returns (status: Status)
    requires buffer != null ==> buffer.Valid()
    modifies buffer, Cells(buffer)
    ensures status == if buffer == null then Failure else Success
    ensures buffer != null ==>
      && buffer.Valid()
      && buffer.contents == old(buffer.contents) + [data]
      && buffer.removed == old(buffer.removed)
      && fresh(Cells(buffer) - old(Cells(buffer)))
  {
    if buffer == null { return Failure; }
    hide Slot, Counted;
    var dummy := new Cell(data);
    dummy.rbIndex := NextIndex(buffer);
    Link(buffer, dummy);
    return Success;
  }

  /** The tag that the writer gives to the next node is its place in its batch. */
  lemma TagOfNext(inserted: nat, posts: nat, index: nat, readers: nat)
    requires readers > 0 && Counted(inserted, posts, index, readers)
    ensures Slot(inserted, readers) == if index == readers then 0 else index
    ensures
      if index == readers then Counted(inserted + 1, posts + 1, 1, readers)
      else Counted(inserted + 1, posts, index + 1, readers)
  {
    if index == readers {
      SlotInBatch(posts + 1, 0, readers);
    } else {
      SlotInBatch(posts, index, readers);
    }
  }

  method Size(buffer: Buffer?) returns (size: nat)
    requires buffer != null ==> buffer.Valid()
    ensures size == if buffer == null then 0 else |buffer.contents|
  {
    size := 0;
    if buffer == null { return 0; }
    if buffer.head == null { return 0; }
    var dummy := buffer.head;
    while dummy != buffer.tail
      invariant 0 <= size < |buffer.spine| && dummy == buffer.spine[size]
      decreases |buffer.spine| - size
    {
      size := size + 1;
      dummy := dummy.next;
    }
    size := size + 1;
  }

  /**
   The serial reader frees one batch from the head.  The walk needs R nodes; with exactly R it leaves `tail` on freed
   memory, and only with more is the list whole again.
   */
  method ClearBatch(buffer: Buffer) returns (crashed: bool, ghost released: seq<Cell>)
    requires buffer.Valid()
    modifies buffer
    ensures crashed <==> old(|buffer.spine|) < buffer.noReaders
    ensures !crashed ==>
      && released == old(buffer.spine)[..buffer.noReaders]
      && buffer.spine == old(buffer.spine)[buffer.noReaders..]
      && buffer.contents == old(buffer.contents)[buffer.noReaders..]
      && buffer.removed == old(buffer.removed) + buffer.noReaders && buffer.tail == old(buffer.tail)
      && (buffer.Valid() <==> buffer.tail !in released)
      && (buffer.tail !in released <==> old(|buffer.spine|) > buffer.noReaders)
  {
    released := [];
    var dummy := buffer.head;
    var i := 0;
    while i < buffer.noReaders
      invariant 0 <= i <= buffer.noReaders && i <= |buffer.spine|
      invariant dummy == if i < |buffer.spine| then buffer.spine[i] else null
      invariant released == buffer.spine[..i]
    {
      var previous := dummy;
      if dummy == null { return true, released; }
      dummy := dummy.next;
      released := released + [previous];
      i := i + 1;
    }
    buffer.head := dummy;
    buffer.removed := buffer.removed + i;
    buffer.spine := buffer.spine[i..];
    buffer.contents := buffer.contents[i..];
    return false, released;
  }
}
