# Sensor gateway: models and proofs

The gateway receives sensor data over TCP, hands it through a shared buffer to reader threads, and keeps running
averages per sensor. This project models its core in Dafny and proves what the code does, including the places where
it does something else than its comments say.

`dafny verify dfyconfig.toml` checks everything.

## What is modelled

**The batch protocol of the shared buffer** (`Heap`, `NodeRound`, `BatchMachine`, `BatchData`, `BatchInvariant`,
`BatchProofs`, `BatchLog`, `BatchTheorems`, `BatchCount`, `BatchCoverage`, `BatchProgress`, `BatchLimits`). One writer
and any number of readers. A state holds the heap of nodes, `head`, `tail`, the write index, the semaphore, the locks
and one control point per thread. A schedule is a sequence of labels, one atomic action each, so the theorems quantify
over every interleaving. A step that dereferences NULL or a freed node, frees a node twice, or reaches the "Design
error" exit sets a fault. Nodes are numbered by allocation, a freed node stays in the heap marked dead, and history
fields (posts, rounds begun, batches freed, the log of callback calls) are read by no step. The invariant is kept by
every step; from it follow memory safety, the slack between writer and readers, the separation of barrier phases, token
conservation, what a round has processed, and the rest state, which can always be reached. `BatchCoverage` reads the
locks given back in a round off the schedule and decides with them whether a batch is covered. `BatchData` ties the data
of the nodes to what the writer's callback delivers along the schedule, and every input has a run that inserts it.

**The round that keeps its locks** (`HeldRound`, `HeldProgress`). The earlier version of the round gives the node lock
back after the barrier instead of before. The same reader steps are used, and here the result is a bijection between
readers and nodes, and the round can always be completed, with all locks free. `BatchLimits.FirstNodeOnly` is the contrasting run of
the current version.

**The two-phase hand-off** (`HandoffMachine`, `HandoffData`, `HandoffInvariant`, `HandoffProofs`, `HandoffTheorems`,
`HandoffProgress`, `HandoffWork`, `HandoffLimits`). An earlier version of the buffer in which every datum goes to one
reader; exactly-once delivery of what the callback delivered over whole runs, no deadlock, readers that can keep up with
the writer, and termination of every schedule once the writer has stopped. It shares `Heap`.

**The buffer as a linked structure, and the writer** (`SBuffer`, `Writer`). The list operations on real `next` pointers,
run by one thread at a time, and the two loops of the writer thread with the data they lose.

**The doubly linked list** (`ListSpec`, `DPList`, `SortedInsert`). A class over nodes with `prev` and `next`; every
operation refines an operation on sequences. A NULL list is an argument like any other. `SortedInsert` says what whole
series of sorted inserts amount to.

**The data manager** (`DataMgr`). Sensors whose windows are shifted in place, on the list above: loading the map,
processing a whole stream of samples.

**The connection manager** (`ConnSweep`, `ConnMgr`). The polling pass with its client list, poll array and receive
buffer. `ConnSweep` gives a pass on values and its closed form; `ConnMgr` is the object whose methods are proved to
compute it.

## Where the code differs from what it says

- One reader is not enough for the batch protocol: the post comes before the link, so the only reader can free the
  writer's `tail`. It is memory safe exactly from two readers on (`BatchLimits.MemorySafeIff`).
- A round can process one node twice and free another unprocessed. A trylock takes a node for the second time exactly when
  its lock was given back earlier in the round, and a batch is covered exactly when no trylock of its round took such a lock
  (`BatchCoverage.TakenTwiceIff`, `BatchCoverage.BatchCoveredIff`). For every number of readers that is memory safe there is
  a run in which all readers work on the first node and nobody on the others (`BatchLimits.FirstNodeOnly`), so no
  configuration guarantees coverage (`BatchLimits.NoReaderCountCovers`).
- The hand-off is memory safe exactly when the end of input is final (`HandoffLimits.MemorySafeIffSticky`).
- The writer drops the rest of the batch in which its pre-fill ends (`Writer.NothingLostIff`).
- Removing by index dereferences NULL exactly for the index of the last of several nodes (`DPList.RemoveAtIndex`).
- Sorted insertion does not compare with the last element, and afterwards refuses to insert into the list it has
  unsorted (`SortedInsert.StaysSortedIff`, `SortedInsert.LoadCompleteIff`).
- The running average is still 0 after exactly five samples (`DataMgr.AverageAsDocumentedIff`).
- A polling pass skips the client after a removed one, so it leaves no silent client exactly when no two silent clients
  are neighbours from the first dropped one on; and a removal wipes what the pass had received
  (`ConnSweep.AllSilentGoneIff`, `ConnSweep.DroppedWipesAll`).

## Conventions

- Synchronisation is sequentially consistent and has POSIX semantics: each action on a semaphore, barrier, lock or shared
  field is one step, and each opening of a barrier names one serial thread.
- `ERROR_IF` in `lab_final` only prints, because `ERROR_EXIT` is `break` inside a one-pass loop; execution goes on.
- `TIMEOUT` is 10 (`lab_final/config.h`), `RUN_AVG_LENGTH` is 5.
- Values and averages are reals. Integers are unbounded: ids and times are only compared and subtracted, and the counters
  that grow with the input (`count`, `sbuff_count`) are not modelled beyond the range of an int.
- In the batch protocol the pre-fill is bounded by the number of readers, which is what the two thread-count macros
  multiply to with one writer.

## Model

| member | source | states |
|---|---|---|
| BatchProofs.ApplyKeeps | lab_final/sbuffer.c:277-353 | every enabled step of the writer, a reader or the barrier keeps the protocol invariant, for two or more readers |
| BatchTheorems.NoFault | lab_final/sbuffer.c:256-353 | in every interleaving no step dereferences NULL or freed memory, frees twice, or reaches the "Design error" exit |
| BatchData.NodesHoldProduced | lab_final/sbuffer.c:327-353 | in every run there is one node per datum delivered by the writer's callback, and node k holds the k-th one for ever |
| BatchTheorems.HeapIsQueue | lab_final/sbuffer.c:327-353 | between inserts every node points to the next one and carries k mod R, `head` is the first node of the first batch not freed, `tail` the last node, and between rounds exactly the nodes before `head` are freed |
| BatchTheorems.RoundLeavesSlack | lab_final/sbuffer.c:286-350 | while batch r is processed or freed there were at least r+R posts and (r+R)R linked nodes, so node (r+1)R exists and lives, `tail` is at or past it, and readers follow `next` only strictly before `tail` |
| BatchTheorems.BarrierKeepsPhases | lab_final/sbuffer.c:288-309 | all readers blocked on the one barrier are at the same of its three wait points, and all node and callback locks are free whenever it opens |
| BatchTheorems.ReclaimIsExclusive | lab_final/sbuffer.c:293-309 | while the serial reader frees nodes or writes `head`, every other reader waits for the end of the round |
| BatchTheorems.FreedBatchOutcome | lab_final/sbuffer.c:256-305 | a batch about to be freed was processed on a non-empty prefix of its nodes, and every reader has run every callback; the prefix is the whole batch when the readers took different nodes |
| BatchTheorems.CallbackSeesOwnNode | lab_final/sbuffer.c:214-250 | with readers contending, `exec_left` equals the number of unset flags, a callback is called with the datum delivered for the node its reader has locked and for the first time in the round, and the call returns only after each callback ran exactly once in this round, with that datum |
| BatchTheorems.TokensConserved | lab_final/sbuffer.c:286-341 | semaphore value + tokens held + rounds begun = posts, and between inserts posts = floor((n-1)/R) |
| BatchTheorems.StuckIff | lab_final/sbuffer.c:285-309 | the rest state is the one in which no step of a reader and no opening of the barrier is enabled |
| BatchTheorems.NodesLeftAtRest | lab_final/sbuffer.c:285-341 | once the writer stopped after n >= 1 inserts and no reader can move, max(0, floor((n-1)/R)-R+1) batches are freed and at most R*R nodes are left, whatever the schedule |
| BatchCount.WholeRounds | lab_final/sbuffer.c:277-309 | after r whole rounds there were r*R*C calls, and each reader ran each callback exactly once per round, with the datum that the writer's callback delivered for one node of that round's batch |
| BatchLog.ApplyKeepsLog | lab_final/sbuffer.c:277-309 | every step keeps the facts about the log of callback calls |
| BatchProgress.ComesToRest | lab_final/sbuffer.c:277-309 | from every reachable state in which the writer has stopped, some continuation brings all readers to rest |
| BatchProgress.CanAlwaysRest | lab_final/sbuffer.c:277-409 | from every reachable state the writer can stop and the readers can come to rest, without another datum |
| BatchProgress.EveryInputRests | lab_final/sbuffer.c:277-409 | for every series of data some run inserts exactly these, in order, and ends with the writer stopped and the readers at rest |
| BatchProgress.PreFillBound | lab_final/sbuffer.c:365-387 | before the readers are let in at most R data are inserted and no token is out |
| BatchCoverage.TakenTwiceIff | lab_final/sbuffer.c:256-268 | in any run a successful trylock takes a node that another reader has taken in the same round if and only if its lock was given back earlier in the round |
| BatchCoverage.BatchCoveredIff | lab_final/sbuffer.c:256-305 | a batch about to be freed was processed on all its nodes if and only if no trylock of its round took a lock given back in that round |
| BatchCoverage.StepHistory | lab_final/sbuffer.c:256-309 | every step keeps the record of locks given back and taken again in line with the readers' choices |
| BatchLimits.MemorySafeIff | lab_final/sbuffer.c:286-350 | no run with R readers faults if and only if R >= 2 |
| BatchLimits.FirstNodeOnly | lab_final/sbuffer.c:256-305 | for every R >= 2 and every number of callbacks, a run that is about to free the first batch after all readers ran all callbacks on its first node and nobody worked on the others |
| BatchLimits.NoReaderCountCovers | lab_final/sbuffer.c:256-305 | no number of readers that is memory safe guarantees that a batch is processed before it is freed |
| BatchLimits.Turn | lab_final/sbuffer.c:214-268 | a reader alone in the round takes the first node, runs every callback on it, and leaves all locks free |
| NodeRound.ScanRoom | lab_final/sbuffer.c:256-274 | a reader that found the nodes up to idx taken by others has a node left to try, so the lock scan cannot run out |
| NodeRound.ActKeeps | lab_final/sbuffer.c:214-274 | every step of the lock scan and of the callback sweep keeps the round invariant |
| NodeRound.RoundOutcome | lab_final/sbuffer.c:256-274 | the nodes chosen in a round are a non-empty prefix of the batch, the whole of it exactly when they differ |
| HeldRound.HeldRoundIsBijective | lab8/sbuffer copy v4.c:309-368 | while the writer links more nodes, from the meeting at the barrier until the last reader has left, readers and the first R nodes are in bijection and each callback ran exactly once on each node with its datum |
| HeldRound.HeldRoundEndsFree | lab8/sbuffer copy v4.c:309-368 | no step of a round faults, some step is possible until all readers have left, and then all node and callback locks are free |
| HeldProgress.HeldRoundCompletes | lab8/sbuffer copy v4.c:309-368 | from every state of a round all readers can leave it |
| HeldRound.PlayData | lab8/sbuffer copy v4.c:309-368 | during a round the nodes keep their data, and each appended node holds its own |
| HandoffProofs.ApplyKeeps | lab8/sbuffer copy v2.c:137-276 | every enabled step keeps the hand-off invariant |
| HandoffData.NodesHoldProduced | lab8/sbuffer copy v2.c:152-171 | in every run there is one node per datum delivered by the writer's callback, and node k holds the k-th one for ever |
| HandoffTheorems.ExactlyOnce | lab8/sbuffer copy v2.c:194-276 | in every complete run each datum delivered by the writer's callback has exactly one call of the readers' callback, with that datum; no fault happened, the list is empty and `count` is the number of data |
| HandoffTheorems.HeapIsQueue | lab8/sbuffer copy v2.c:137-171 | between inserts every node points to the next one, `head` is the first node not removed, `tail` the last one, and no node from `head` on is freed |
| HandoffTheorems.TokensConserved | lab8/sbuffer copy v2.c:203-250 | until the drain semaphore value + tokens in use + removed nodes = posts, and posts are the data beyond the first R+1 |
| HandoffTheorems.RemovalLeavesBuffer | lab8/sbuffer copy v2.c:137-171 | a removal in the posting phase leaves at least R+1 linked nodes, `head` is before `tail`, and the unlocked NULL check does not fire |
| HandoffTheorems.CleanupAfterLastInsert | lab8/sbuffer copy v2.c:203-263 | no reader passes the write lock or drains before the last insert is linked and the writer has stopped |
| HandoffTheorems.BoundedOvertaking | lab8/sbuffer copy v2.c:244-273 | when a datum is processed at most R-1 earlier ones are unprocessed, and none during the drain |
| HandoffProgress.NeverStuck | lab8/sbuffer copy v2.c:194-276 | for every number of readers, each reachable state is complete or has a step |
| HandoffProgress.BoundedAfterStop | lab8/sbuffer copy v2.c:234-276 | after the writer has stopped no schedule takes more steps than a bound computed from the state |
| HandoffProgress.Completes | lab8/sbuffer copy v2.c:234-276 | from every reachable state in which the writer has stopped a complete one is reached |
| HandoffProgress.CanAlwaysComplete | lab8/sbuffer copy v2.c:194-276 | from every reachable state a complete one can be reached, without another datum |
| HandoffProgress.MaximalRunsDeliver | lab8/sbuffer copy v2.c:194-276 | a run that cannot be continued is complete and has handled every delivered datum exactly once |
| HandoffProgress.EveryInputCompletes | lab8/sbuffer copy v2.c:194-276 | for every series of data some run delivers exactly these, in order, and is complete |
| HandoffProgress.PreFillBound | lab8/sbuffer copy v2.c:203-215 | before the readers are let in at most R+1 data are buffered and nothing is posted |
| HandoffWork.KeepsUp | lab8/sbuffer copy v2.c:218-256 | whenever the writer is between two inserts the readers can handle all data but the last R+1 before it delivers another one |
| HandoffLimits.MemorySafeIffSticky | lab8/sbuffer copy v2.c:203-228 | for any number of readers no run faults if and only if the end of input is final |
| SBuffer.Insert | lab_final/sbuffer.c:327-353 | the datum is appended, nodes stay linked from `head` to `tail`, carry k mod R, and posts count the full batches that have a successor; NULL fails |
| SBuffer.TagOfNext | lab_final/sbuffer.c:335-341 | the wrapping write index is the place of the next node in its batch, and a batch is posted when its successor arrives |
| SBuffer.PostsSoFar | lab_final/sbuffer.c:335-341 | after n inserts there were (n-1)/R posts |
| BatchInvariant.SlotIsMod | lab_final/sbuffer.c:335-341 | the place in a batch is k mod R |
| SBuffer.Size | lab_final/sbuffer.c:182-196 | the walk to `tail` counts every node once |
| SBuffer.ClearBatch | lab_final/sbuffer.c:297-305 | the walk crashes exactly below R nodes, frees the first R in order otherwise, and leaves `tail` on freed memory exactly when there were R |
| Writer.WriterThread | lab_final/sbuffer.c:365-399 | what the two loops insert is the specified sequence, for every series of callback results |
| Writer.DeliveredInOrder | lab_final/sbuffer.c:390-399 | batches are inserted whole and in order, and nothing behind an error |
| Writer.PreFillFails | lab_final/sbuffer.c:365-399 | after an error during the pre-fill the second loop goes on with the next call and nothing is lost |
| Writer.PreFillEnds | lab_final/sbuffer.c:365-399 | when the pre-fill ends within a batch, exactly the part of this batch that filled it up is inserted, and all later batches whole |
| Writer.OfferedMinusGap | lab_final/sbuffer.c:365-399 | the inserted data are the offered data minus one gap, right after the pre-filled ones |
| Writer.NothingLostIff | lab_final/sbuffer.c:365-382 | nothing is lost if and only if some first calls deliver exactly the pre-fill or all good calls together deliver less |
| Writer.SingleDataSafe | lab_final/sbuffer.c:365-399 | nothing is lost when every batch has at most one datum |
| DPList.List.constructor | lab_final/lib/dplist.c:46-62 | a new list is empty and keeps its callbacks |
| DPList.Free | lab_final/lib/dplist.c:65-107 | every node is given back exactly once in list order, elements are freed on request, NULL is returned |
| DPList.InsertAtIndex | lab_final/lib/dplist.c:109-156 | s becomes s[..k] + [x] + s[k..] with the clamped position, the links stay inverse, only one node is new |
| DPList.RemoveAtIndex | lab_final/lib/dplist.c:158-215 | crashes exactly for the index of the last of several nodes; otherwise exactly the node at the clamped position goes |
| ListSpec.NearestPosition | lab_final/lib/dplist.c:109-275 | an index outside the list stands for the nearest position |
| ListSpec.InsertRemoveInverse | lab_final/lib/dplist.c:109-215 | removing at an index undoes an insert at that index, and inserting there undoes a removal |
| DPList.Size | lab_final/lib/dplist.c:217-231 | the number of elements, -1 for NULL |
| DPList.GetElementAtIndex | lab_final/lib/dplist.c:233-247 | the element at the clamped position |
| DPList.GetIndexOfElement | lab_final/lib/dplist.c:249-260 | the first index whose element equals under the callback, or -1 |
| DPList.GetReferenceAtIndex | lab_final/lib/dplist.c:262-275 | the node at the clamped position |
| DPList.GetElementAtReference | lab_final/lib/dplist.c:277-294 | the element of a node of the list, nothing for other references |
| DPList.GetFirstReference | lab_final/lib/dplist.c:302-307 | the first node or NULL |
| DPList.GetLastReference | lab_final/lib/dplist.c:315-324 | the last node or NULL |
| DPList.GetNextReference | lab_final/lib/dplist.c:335-342 | the following node, NULL for the last and for foreign references |
| DPList.GetPreviousReference | lab_final/lib/dplist.c:353-360 | the preceding node, NULL for the first and for foreign references |
| DPList.GetReferenceOfElement | lab_final/lib/dplist.c:370-381 | the first node holding the same element pointer |
| DPList.GetIndexOfReference | lab_final/lib/dplist.c:393-404 | the position of a node, or -1 |
| DPList.ReferencesInvertIndices | lab_final/lib/dplist.c:262-404 | index and reference lookups undo each other, next and previous are inverse and agree with the pointer fields |
| DPList.InsertAtReference | lab_final/lib/dplist.c:416-433 | inserts before the given node, the old nodes stay in place and order; foreign references change nothing; NULL reference returns NULL |
| DPList.IsSorted | lab_final/lib/dplist.c:535-548 | true exactly for sorted lists that exist |
| DPList.InsertSorted | lab_final/lib/dplist.c:446-467 | the element goes before the first of all but the last that is not below it, else to the end, and the old nodes stay in place and order; an unsorted list is left alone and NULL returned |
| DPList.RemoveAtReference | lab_final/lib/dplist.c:479-498 | exactly the given node goes, or nothing, and the removal never crashes |
| DPList.RemovalIndex | lab_final/lib/dplist.c:511-522 | the index passed on is that of the first element that is the given one or equal to it under the callback, one more for the last node, -1 without a match |
| ListSpec.FirstMatch | lab_final/lib/dplist.c:508-526 | the element found for removal is the first that is the given one or equal to it under the callback, and none is found exactly when there is none |
| DPList.RemoveElement | lab_final/lib/dplist.c:508-526 | exactly the first match goes, or nothing, and the removal never crashes |
| SortedInsert.PositionSeparates | lab_final/lib/dplist.c:446-467 | the position found is not the last element's; the element before it is below the new one and the one at it is not |
| SortedInsert.StaysSortedIff | lab_final/lib/dplist.c:446-467 | a sorted list stays sorted if and only if the new element does not belong right before the last one |
| SortedInsert.LoadCompleteIff | lab_final/datamgr.c:48-55 | every line of a map is stored if and only if no line but the last has exactly one earlier line not below it, that one being above it |
| SortedInsert.AscendingLoads | lab_final/datamgr.c:48-55 | a strictly ascending map is stored completely and in order |
| SortedInsert.LoadStuck | lab_final/lib/dplist.c:446-467 | once the list is unsorted no later call changes it |
| SortedInsert.DescendingPairBlocks | lab_final/lib/dplist.c:446-467 | ids 2, 1, 3 leave the list 2, 1 |
| DataMgr.Sensor.PushValue | lab_final/datamgr.c:158-166 | the window loses its oldest value and gains the new one at its end |
| DataMgr.Sensor.UpdateRavg | lab_final/datamgr.c:168-183 | the average is the sum of the five values over five for a full window, 0 while the window is being filled, and the fill count grows to five |
| DataMgr.Sensor.Update | lab_final/datamgr.c:131-137 | one sample: window, average, fill count and time stamp together |
| DataMgr.AfterSamples | lab_final/datamgr.c:131-183 | the fold over all samples equals the closed form: last min(n,5) values in order behind what is left of the first memory, fill count min(n,5), average and time stamp |
| DataMgr.SensorReport | lab_final/datamgr.c:131-183 | value by value: average, time stamp, fill count and window after any n samples |
| DataMgr.MemoryNeverShows | lab_final/datamgr.c:168-183 | what a window held before its first sample never reaches the average, and is gone after five samples |
| DataMgr.AverageAsDocumentedIff | lab_final/datamgr.c:168-183 | the average is the documented one if and only if there were not exactly five samples, or five whose values add up to 0 |
| DataMgr.SensorSearch | lab_final/datamgr.c:120-129 | the first sensor with the id, or NULL |
| DataMgr.ProcessSensorData | lab_final/datamgr.c:57-68 | the first sensor with the id is updated and no other; unknown ids change nothing |
| DataMgr.ProcessStream | lab_final/datamgr.c:31-36 | after any stream each sensor has changed by its own samples only |
| DataMgr.OwnIsFilter | lab_final/datamgr.c:57-68 | a sensor's samples are those with its id, in stream order |
| DataMgr.ParseSensorMap | lab_final/datamgr.c:48-55 | the list is what the sorted inserts make of the lines, and the new sensors are fresh and empty |
| DataMgr.AscendingSidsLoad | lab_final/datamgr.c:48-55 | a map with ascending sids is stored completely and in its own order |
| DataMgr.SidMapCompleteIff | lab_final/datamgr.c:48-55 | a map is stored completely if and only if no line but the last comes behind exactly one line whose sid is not smaller, that sid being larger |
| DataMgr.ParseSensorFiles | lab_final/datamgr.c:26-37 | the sensors are those the map loads, in that order, and each has the closed-form summary of its own samples |
| ConnMgr.Connection.constructor | lab_final/connmgr.c:195-223 | a new connection has no clients and its arrays are in step |
| ConnMgr.Connection.PfdsUpdate | lab_final/connmgr.c:148-167 | the poll array is the server followed by the clients in list order, without events |
| ConnMgr.Connection.RxbuffUpdate | lab_final/connmgr.c:169-193 | one empty, unflagged receive slot per client |
| ConnMgr.Connection.AddClient | lab_final/connmgr.c:238-243 | the client is put in front, all arrays are rebuilt in step, events and received data are gone |
| ConnMgr.Connection.RemoveClient | lab_final/connmgr.c:245-250 | exactly this client goes and is freed, all arrays are rebuilt in step, events and received data are gone |
| ConnMgr.Connection.ReceiveFrom | lab_final/connmgr.c:294-330 | each of the three calls stores its own field or leaves it; only a time stamp sets the flag, refreshes the client and clears the timeout |
| ConnMgr.Connection.VisitClient | lab_final/connmgr.c:289-335 | the loop body for one client |
| ConnMgr.Connection.Listen | lab_final/connmgr.c:260-340 | the pass asks for closing exactly when the one before was idle; otherwise it computes the specified sweep and leaves the arrays in step |
| ConnSweep.SweepOutcome | lab_final/connmgr.c:289-335 | the loop equals its closed form: clients before the first dropped one are read; with a dropped one all slots are empty and the clients behind are thinned out |
| ConnSweep.SweepWithoutEvents | lab_final/connmgr.c:289-335 | the rest of a pass after the set of clients changed receives nothing and leaves the survivors |
| ConnSweep.DeliveredUnlessDropped | lab_final/connmgr.c:182-335 | in a pass that removes nobody each slot holds field by field what its client sent, and the flag and the client's time follow the time stamps |
| ConnSweep.DroppedWipesAll | lab_final/connmgr.c:245-335 | a pass removes somebody exactly when a client has been silent for ten seconds and sends no time stamp, and then returns with all slots 0 and all flags cleared |
| ConnSweep.PassDelivers | lab_final/connmgr.c:260-335 | from the start of a pass: cleared flags, then field by field what the clients with an event sent; the pass is idle exactly when no time stamp arrived |
| ConnSweep.AcceptDeliversNothing | lab_final/connmgr.c:278-335 | a pass that lets a client in ends with blank slots and cleared flags, and counts as active |
| ConnSweep.TimeoutAfterPass | lab_final/connmgr.c:267-329 | a pass counts as idle exactly when no complete sample arrived before the first removal |
| ConnSweep.RunsHalve | lab_final/connmgr.c:289-334 | in a pass, each maximal run of k silent clients at or behind the first dropped one keeps its second, fourth, ... client, floor(k/2) of them |
| ConnSweep.SurvivorsAreKept | lab_final/connmgr.c:289-334 | after a pass exactly these clients are gone: the first silent one with nothing to read, and behind it every silent one whose predecessor stays |
| ConnSweep.AllSilentGoneIff | lab_final/connmgr.c:289-334 | a pass leaves no silent client if and only if no two silent clients are neighbours from the first dropped one on |

## Left out

- Sockets, `poll`, files, SQLite, `fork`, `localtime` and all printing: poll results, received data and the clock are parameters.
- ConnMgr.Connection.Listen: one clock value for the whole pass, where the code reads the clock per client; a failing `poll`, which only prints, is not modelled.
- Allocation failures and the byte sizes of allocations: arrays have the length their code intends.
- Weak memory and data races below the level of single shared accesses.
- Reader shutdown in `lab_final`: readers block for ever in `sem_wait` after the writer ends, so `reader_cleanup` is never reached; quiescence is proved instead of termination. The branch for a failing `sem_wait` is left out with it.
- More than one writer, and reader counts inside the read-write lock, which no property needs.
- The thread protocols are step machines on values, so the in-place list in `SBuffer` is proved for one thread at a time; the machines repeat its pointer updates as single steps. The assignment of `head` and `tail` on the first insert is one step.
- BatchTheorems.FreedBatchOutcome: does not say that every node is processed, because no configuration guarantees it (`BatchLimits.NoReaderCountCovers`); `BatchCoverage.BatchCoveredIff` says when it happens.
- HeldRound.HeldRoundIsBijective: one round over nodes that are already linked, numbered from `head` on; the uninitialised loop counter in that version is taken as 0, and freeing is not modelled.
- NodeRound.ActKeeps: with no callbacks `r_execute` returns its failure code, which only prints; the model treats it like any return.
- The clients' comparison callback: `ConnMgr` compares sockets only, because the list uses the callback for equality and open sockets differ. A new socket is required to differ from the open ones.
- DataMgr.SensorSearch: its parameter `memory` stands for the contents of the uninitialised dummy sensor; the getters that dereference the result without a check, and the messages about the average, are left out.
- DPList.InsertAtIndex: copies are made by a function, so for elements that are objects the caller makes the copy and passes it on.
- `dpl_print`, `sbuffer_remove` and `sbuffer_free` of `lab_final`, callback registration, `main.c`, the storage manager, and the older copies of all modules: straightforward next to what is here, and nothing here depends on them.
- `lab8/sbuffer.c`, which posts one token per node, and the allocator of lab3, whose bodies are empty.
