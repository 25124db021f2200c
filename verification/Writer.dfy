/**
 The two loops of `writer_thread` (`lab_final/sbuffer.c`): they call the writer callback, which delivers a batch of
 data or an error, and insert what it delivered.  The first loop pre-fills the buffer and is left in the middle of a
 batch; nobody comes back for the rest of that batch.
 */
module Writer {
  import opened Basics
  import opened SBuffer

  type Batch = seq<SensorData>

  /** Everything delivered up to the next error. */
  function Delivered(calls: seq<Option<Batch>>): Batch {
    if calls == [] || calls[0].None? then [] else calls[0].value + Delivered(calls[1..])
  }

  /** The calls after the next error. */
  function AfterError(calls: seq<Option<Batch>>): seq<Option<Batch>> {
    if calls == [] then [] else if calls[0].None? then calls[1..] else AfterError(calls[1..])
  }

  /** What the writer inserts when it has `room` more nodes to pre-fill. */
  function Inserted(calls: seq<Option<Batch>>, room: nat): Batch
    requires room > 0
  {
    if calls == [] then []
    else
      match calls[0]
      case None => Delivered(calls[1..])
      case Some(batch) =>
        if |batch| < room then batch + Inserted(calls[1..], room - |batch|)
        else batch[..room] + Delivered(calls[1..])
  }

  /** The rest of the batch in which the pre-fill ends. */
  function Gap(calls: seq<Option<Batch>>, room: nat): Batch
    requires room > 0
  {
    if calls == [] || calls[0].None? then []
    else
      var batch := calls[0].value;
      if |batch| < room then Gap(calls[1..], room - |batch|) else batch[room..]
  }

  /** Everything the callback delivers to the two loops together. */
  function Offered(calls: seq<Option<Batch>>, room: nat): Batch
    requires room > 0
  {
    if calls == [] then []
    else
      match calls[0]
      case None => Delivered(calls[1..])
      case Some(batch) =>
        if |batch| < room then batch + Offered(calls[1..], room - |batch|) else batch + Delivered(calls[1..])
  }

  /** One batch's worth of inserts, as far as the loop goes. */
  method InsertBatch(buffer: Buffer, batch: Batch, count: nat, limit: nat) returns (total: nat)
    requires buffer.Valid() && count < limit
    modifies buffer, Cells(buffer)
    ensures buffer.Valid() && fresh(Cells(buffer) - old(Cells(buffer)))
    ensures
      var n := if |batch| < limit - count then |batch| else limit - count;
      buffer.contents == old(buffer.contents) + batch[..n] && total == count + n
  {
    total := count;
    var i := 0;
    while i < |batch|
      invariant 0 <= i <= |batch| && total == count + i && total < limit
      invariant buffer.Valid() && fresh(Cells(buffer) - old(Cells(buffer)))
      invariant buffer.contents == old(buffer.contents) + batch[..i]
    {
      var _ := Insert(buffer, batch[i]);
      assert batch[..i + 1] == batch[..i] + [batch[i]];
      total := total + 1;
      i := i + 1;
      if total == limit { break; }
    }
    assert batch[..i] == batch[..if |batch| < limit - count then |batch| else limit - count];
  }

  method InsertWhole(buffer: Buffer, batch: Batch)
    requires buffer.Valid()
    modifies buffer, Cells(buffer)
    ensures buffer.Valid() && fresh(Cells(buffer) - old(Cells(buffer)))
    ensures buffer.contents == old(buffer.contents) + batch
  {
    var i := 0;
    while i < |batch|
      invariant 0 <= i <= |batch|
      invariant buffer.Valid() && fresh(Cells(buffer) - old(Cells(buffer)))
      invariant buffer.contents == old(buffer.contents) + batch[..i]
    {
      var _ := Insert(buffer, batch[i]);
      assert batch[..i + 1] == batch[..i] + [batch[i]];
      i := i + 1;
    }
    assert batch[..i] == batch;
  }

  lemma DeliveredStep(calls: seq<Option<Batch>>, next: nat, before: Batch)
    requires next < |calls| && calls[next].Some?
    ensures before + Delivered(calls[next..]) == before + calls[next].value + Delivered(calls[next + 1..])
  {
    assert calls[next..][1..] == calls[next + 1..];
  }

  /** The second loop: every batch is inserted whole, from call `first` on. */
  method InsertAll(buffer: Buffer, calls: seq<Option<Batch>>, first: nat)
    requires buffer.Valid() && first <= |calls|
    modifies buffer, Cells(buffer)
    ensures buffer.Valid()
    ensures buffer.contents == old(buffer.contents) + Delivered(calls[first..])
  {
    hide Delivered;
    var next := first;
    while next < |calls| && calls[next].Some?
      invariant first <= next <= |calls|
      invariant buffer.Valid() && fresh(Cells(buffer) - old(Cells(buffer)))
      invariant buffer.contents + Delivered(calls[next..]) == old(buffer.contents) + Delivered(calls[first..])
    {
      DeliveredStep(calls, next, buffer.contents);
      InsertWhole(buffer, calls[next].value);
      next := next + 1;
    }
    NothingDelivered(calls, next, buffer.contents);
  }

  lemma NothingDelivered(calls: seq<Option<Batch>>, next: nat, before: Batch)
    requires next <= |calls| && (next < |calls| ==> calls[next].None?)
    ensures before + Delivered(calls[next..]) == before
  {
  }

  lemma InsertedStep(calls: seq<Option<Batch>>, next: nat, count: nat, limit: nat, before: Batch)
    requires next < |calls| && calls[next].Some? && count < limit
    ensures
      var batch := calls[next].value;
      var n := if |batch| < limit - count then |batch| else limit - count;
      before + Inserted(calls[next..], limit - count) ==
        before + batch[..n] +
          (if count + n < limit then Inserted(calls[next + 1..], limit - (count + n)) else Delivered(calls[next + 1..]))
  {
    assert calls[next..][1..] == calls[next + 1..];
    assert calls[next].value[..|calls[next].value|] == calls[next].value;
  }

  /** A call that fails ends the first loop; so do calls that there are no more of. */
  lemma InsertedEnd(calls: seq<Option<Batch>>, next: nat, room: nat)
    requires next <= |calls| && (next < |calls| ==> calls[next].None?) && room > 0
    ensures Inserted(calls[next..], room) == Delivered(calls[if next < |calls| then next + 1 else next..])
  {
    if next < |calls| { assert calls[next..][1..] == calls[next + 1..]; }
  }

  /** The first loop; `next` is the first call of the second one. */
  method PreFill(buffer: Buffer, calls: seq<Option<Batch>>, limit: nat) returns (next: nat)
    requires buffer.Valid() && limit > 0
    modifies buffer, Cells(buffer)
    ensures buffer.Valid() && fresh(Cells(buffer) - old(Cells(buffer))) && next <= |calls|
    ensures buffer.contents + Delivered(calls[next..]) == old(buffer.contents) + Inserted(calls, limit)
  {
    hide Inserted, Delivered, Buffer.Valid;
    var count: nat := 0;
    next := 0;
    assert calls[0..] == calls;
    while next < |calls| && calls[next].Some?
      invariant next <= |calls| && count < limit
      invariant buffer.Valid() && fresh(Cells(buffer) - old(Cells(buffer)))
      invariant buffer.contents + Inserted(calls[next..], limit - count) == old(buffer.contents) + Inserted(calls, limit)
    {
      InsertedStep(calls, next, count, limit, buffer.contents);
      count := InsertBatch(buffer, calls[next].value, count, limit);
      next := next + 1;
      if count == limit { return; }
    }
    InsertedEnd(calls, next, limit - count);
    if next < |calls| { next := next + 1; }
  }

  /** `writer_thread`; `limit` is the number of readers times the number of writers. */
  method WriterThread(buffer: Buffer, calls: seq<Option<Batch>>, limit: nat)
    requires buffer.Valid() && limit > 0
    modifies buffer, Cells(buffer)
    ensures buffer.Valid()
    ensures buffer.contents == old(buffer.contents) + Inserted(calls, limit)
  {
    var next := PreFill(buffer, calls, limit);
    InsertAll(buffer, calls, next);
  }

  // ----- what is lost -----

  /** The inserted data are everything offered but one gap, which lies inside the batch that ends the pre-fill. */
  lemma {:induction false} OfferedMinusGap(calls: seq<Option<Batch>>, room: nat) returns (before: Batch, after: Batch)
    requires room > 0
    ensures Offered(calls, room) == before + Gap(calls, room) + after
    ensures Inserted(calls, room) == before + after
    ensures Gap(calls, room) != [] ==> |before| == room
  {
    before, after := [], [];
    if calls != [] {
      if calls[0].None? {
        after := Delivered(calls[1..]);
      } else {
        var batch := calls[0].value;
        if |batch| < room {
          before, after := OfferedMinusGap(calls[1..], room - |batch|);
          assert batch + (before + Gap(calls[1..], room - |batch|) + after) == batch + before + Gap(calls, room) + after;
          assert batch + (before + after) == batch + before + after;
          before := batch + before;
        } else {
          before, after := batch[..room], Delivered(calls[1..]);
          assert batch == batch[..room] + batch[room..];
        }
      }
    }
  }

  /** How much the first `n` calls deliver, if none of them is an error. */
  function Total(calls: seq<Option<Batch>>, n: nat): nat
    requires n <= |calls|
  {
    if n == 0 then 0 else (if calls[0].Some? then |calls[0].value| else 0) + Total(calls[1..], n - 1)
  }

  ghost predicate Good(calls: seq<Option<Batch>>, n: nat)
    requires n <= |calls|
  {
    forall i :: 0 <= i < n ==> calls[i].Some?
  }

  /** What a call delivers comes behind the deliveries before it; an error ends them. */
  lemma {:induction false} DeliveredInOrder(before: seq<Option<Batch>>, call: Option<Batch>, behind: seq<Option<Batch>>)
    requires Good(before, |before|)
    ensures Delivered(before + [call] + behind) ==
      Delivered(before) + match call case None => [] case Some(batch) => batch + Delivered(behind)
  {
    var calls := before + [call] + behind;
    if before == [] {
      assert calls == [call] + behind;
    } else {
      assert calls[1..] == before[1..] + [call] + behind;
      DeliveredInOrder(before[1..], call, behind);
    }
  }

  /** An error during the pre-fill: the second loop goes on with the call behind it, and nothing is lost. */
  lemma {:induction false} PreFillFails(calls: seq<Option<Batch>>, room: nat, n: nat)
    requires room > 0 && n <= |calls| && Good(calls, n) && Total(calls, n) < room && (n < |calls| ==> calls[n].None?)
    ensures Inserted(calls, room) == Offered(calls, room)
      == Delivered(calls[..n]) + Delivered(calls[if n < |calls| then n + 1 else n..])
  {
    if n == 0 {
      EndsAtOnce(calls, room);
      FailsAtOnce(calls, room);
    } else {
      FirstBatchFits(calls, room, n);
      var batch, rest := calls[0].value, calls[1..];
      var behind := calls[if n < |calls| then n + 1 else n..];
      assert rest[if n - 1 < |rest| then n else n - 1..] == behind;
      hide Inserted, Offered, Delivered, Total;
      PreFillFails(rest, room - |batch|, n - 1);
      Joined(batch, Delivered(rest[..n - 1]), Delivered(behind));
    }
  }

  lemma FailsAtOnce(calls: seq<Option<Batch>>, room: nat)
    requires room > 0 && (calls != [] ==> calls[0].None?)
    ensures Inserted(calls, room) == Offered(calls, room) == Delivered(calls[if calls != [] then 1 else 0..])
  {
  }

  lemma Joined(a: Batch, b: Batch, c: Batch)
    ensures a + (b + c) == a + b + c
  {
  }

  /** The pre-fill ends within batch `n`: only the first part of that batch is inserted. */
  lemma {:induction false} PreFillEnds(calls: seq<Option<Batch>>, room: nat, n: nat)
    requires room > 0 && n < |calls| && Good(calls, n + 1) && Total(calls, n) < room <= Total(calls, n) + |calls[n].value|
    ensures Inserted(calls, room) == Delivered(calls[..n]) + calls[n].value[..room - Total(calls, n)] + Delivered(calls[n + 1..])
    ensures Offered(calls, room) == Delivered(calls[..n]) + calls[n].value + Delivered(calls[n + 1..])
  {
    if n == 0 {
      EndsAtOnce(calls, room);
    } else {
      FirstBatchFits(calls, room, n);
      hide Inserted, Offered, Delivered, Total;
      var batch, rest := calls[0].value, calls[1..];
      PreFillEnds(rest, room - |batch|, n - 1);
      assert rest[n - 1] == calls[n] && rest[n - 1 + 1..] == calls[n + 1..];
      var before, behind := Delivered(rest[..n - 1]), Delivered(calls[n + 1..]);
      Joined(batch, before + calls[n].value[..room - Total(calls, n)], behind);
      Joined(batch, before, calls[n].value[..room - Total(calls, n)]);
      Joined(batch, before + calls[n].value, behind);
      Joined(batch, before, calls[n].value);
    }
  }

  lemma EndsAtOnce(calls: seq<Option<Batch>>, room: nat)
    requires room > 0
    ensures Total(calls, 0) == 0 && Delivered(calls[..0]) == []
    ensures calls != [] && calls[0].Some? && |calls[0].value| >= room ==>
      && Inserted(calls, room) == calls[0].value[..room] + Delivered(calls[1..])
      && Offered(calls, room) == calls[0].value + Delivered(calls[1..])
  {
  }

  lemma FirstBatchFits(calls: seq<Option<Batch>>, room: nat, n: nat)
    requires room > 0 && 0 < n <= |calls| && Good(calls, n) && Total(calls, n) < room
    ensures
      var rest, batch := calls[1..], calls[0].value;
      && Good(rest, n - 1) && |batch| < room && Total(calls, n) == |batch| + Total(rest, n - 1)
      && Inserted(calls, room) == batch + Inserted(rest, room - |batch|)
      && Offered(calls, room) == batch + Offered(rest, room - |batch|)
      && Delivered(calls) == batch + Delivered(rest)
      && Delivered(calls[..n]) == batch + Delivered(rest[..n - 1])
  {
    assert calls[..n][1..] == calls[1..][..n - 1];
  }

  /**
   Nothing is lost exactly when the batches add up: some calls before the first error deliver exactly as many data as
   are pre-filled, or all of them together deliver fewer.
   */
  lemma NothingLostIff(calls: seq<Option<Batch>>, room: nat)
    requires room > 0
    ensures Inserted(calls, room) == Offered(calls, room)
      <==> |Delivered(calls)| < room || exists n: nat :: n <= |calls| && Good(calls, n) && Total(calls, n) == room
  {
    var before, after := OfferedMinusGap(calls, room);
    GapIff(calls, room);
  }

  lemma {:induction false} GapIff(calls: seq<Option<Batch>>, room: nat)
    requires room > 0
    ensures Gap(calls, room) == []
      <==> |Delivered(calls)| < room || exists n: nat :: n <= |calls| && Good(calls, n) && Total(calls, n) == room
  {
    if calls != [] && calls[0].Some? {
      var size := |calls[0].value|;
      if size < room { GapIff(calls[1..], room - size); }
      if size == room { assert Good(calls[1..], 0) && Total(calls[1..], 0) == 0; }
      FirstCall(calls, room);
    }
  }

  /** Looking for a matching total past the first call. */
  lemma FirstCall(calls: seq<Option<Batch>>, room: nat)
    requires room > 0 && calls != [] && calls[0].Some?
    ensures (exists n: nat :: n <= |calls| && Good(calls, n) && Total(calls, n) == room)
      <==> |calls[0].value| <= room && exists n: nat :: n <= |calls| - 1 && Good(calls[1..], n) && Total(calls[1..], n) == room - |calls[0].value|
  {
    var size := |calls[0].value|;
    if n: nat :| n <= |calls| && Good(calls, n) && Total(calls, n) == room {
      assert n > 0 && Good(calls[1..], n - 1) && Total(calls[1..], n - 1) == room - size;
    }
    if size <= room {
      if n: nat :| n <= |calls| - 1 && Good(calls[1..], n) && Total(calls[1..], n) == room - size {
        assert Good(calls, n + 1) && Total(calls, n + 1) == room;
      }
    }
  }

  /** Callbacks that deliver one datum at a time lose nothing. */
  lemma {:induction false} SingleDataSafe(calls: seq<Option<Batch>>, room: nat)
    requires room > 0 && forall i :: 0 <= i < |calls| ==> calls[i].None? || |calls[i].value| <= 1
    ensures Inserted(calls, room) == Offered(calls, room)
  {
    if calls != [] && calls[0].Some? && |calls[0].value| < room {
      SingleDataSafe(calls[1..], room - |calls[0].value|);
    }
  }
}
