# Verified models of latency-benchmark

This project models the algorithms of the latency-benchmark repository that live in its own code, and proves
their guarantees over all inputs and all interleavings.

* **Ticketed publish into a ring** (`TicketRing*`, `LockedRing`, `ThreadTransWrite`, `AtomicTickets`,
  `BitMask`, `ModuloBenchmark`). Any number of writers draw tickets, store into the slot of their ticket and move
  a cursor with a weak compare-and-exchange. One transition function covers both arithmetics: `Unbounded`
  integers, about which the theorems are stated, and `Int32`, the two's-complement ints of the program, which the
  classes execute; `TicketRingInt32` proves that the second is the image of the first. Starting states are
  quiescent states with any counter value, so the results also hold for fixtures whose counters are not reset.
* **Java harness** (`JavaHarness`, `JavaSafety`, `JavaClock`, `JavaTheorems`, `JavaRun`, `JavaReport`). Producers, a
  bounded FIFO queue, end markers, consumers and the joining main thread, for every number of producers, every number of
  consumers and every capacity from 1 on.
* **Go harness** (`GoHarness`, `GoSafety`, `GoClock`, `GoShutdown`, `GoNecessity`, `GoRun`). Goroutines that meet on
  two unbuffered channels; a send and its receive are one step.
* **Division of the work** (`WorkSlices`) and **reports** (`Quantile`, `QuantileExact`, `LatencyReport`,
  `QuantileRows`, and the composition with completed runs in `JavaReport` and `GoRun`).

Each protocol is a transition function on states (`Enabled`, `Apply`, `Exec`); a run is any admissible sequence of
steps. The classes hold the program's fields and arrays, have one method per step, and each method is proved to
take the abstract view of the object to `Apply` of the old view; the lemmas are about `Exec`. Where a step reads a
clock, it carries the time that has passed, so the clock is an arbitrary nondecreasing counter (`JavaClock`,
`GoClock`: every reading kept is the start plus the delays up to its own step).

## What turned out not to hold, and when it does

* The loop condition of the compare-and-exchange also leaves the loop on a spurious failure at the right cursor.
  The run can then stall for good exactly when there are two or more iterations altogether
  (`WeakCasStallsIffTwoIterations`); with a strong compare-and-exchange every run can be completed.
* A slot can go back to an older ticket exactly when more writers have work than there are slots
  (`RegressesIffTooManyWriters`).
* The Go harness multiplexes ready values 1..n and the later signals 1 and 2. From the end of the ready loop it can
  deadlock if and only if some ready value is still unreceived there (`DeadlockIffReadyPending`); from the start it
  can deadlock exactly for two or more consumers (`CanDeadlockIffTwoConsumers`), and it can end with blocks not
  counted exactly for two or more consumers and at least one block (`BlocksCanBeLostIffTwoConsumers`).
  Whichever producer is chosen, a run can end with that one before its first block (`AnyProducerCanBeLeftOut`).
  A block that was sent and never received is reported with the least Duration (`LostBlockSaturates`).
* The sampled position of a quantile is not always the exact quotient. `PositionFormula` gives it in integer
  arithmetic for every i and cnt: it is one less exactly when `ReadsOneLess` holds, which compares the shortfall of
  the double nearest to i/100 with the spacing of doubles below the quotient (the 29th of 100 is such a case,
  `OneLessOccurs`).
* A Java row has as many separators as the header exactly when no sampled value is Integer.MAX_VALUE
  (`RowAlignsIffNoSentinel`), and a recorded end time of zero is taken for a missing one
  (`ElapsedTrueIffNonZero`).

## Model

| member | source | states |
|---|---|---|
| TicketRingTheorems.PublishedPrefix | c/gbenchmark/muggle_thread_trans_write/muggle_thread_trans_write.cpp:114-130 | In every run, spurious failures included, exactly the tickets below the cursor are published, in order, each stored before; at most one ticket is dropped, the one at the cursor |
| TicketRingTheorems.TicketsAndWriters | c/gbenchmark/muggle_thread_trans_write/muggle_thread_trans_write.cpp:118-129 | Tickets from the cursor to next that are not dropped are in bijection with the writers inside an iteration, so next is at most one per writer ahead |
| TicketRingTheorems.SlotsExclusive | c/gbenchmark/muggle_thread_trans_write/muggle_thread_trans_write.cpp:118-121 | With no more writers with work than slots two writers in flight never address the same slot |
| TicketRingTheorems.SlotHoldsLatest | c/gbenchmark/muggle_thread_trans_write/muggle_thread_trans_write.cpp:120-129 | Each slot holds what the sequential program leaves there, or the very next ticket for that slot, whose writer has stored and not yet published |
| TicketRingTheorems.SequentialHoldsLast | c/gbenchmark/muggle_thread_trans_write/muggle_thread_trans_write.cpp:39-44 | The sequential program leaves in each slot the last ticket appended there |
| TicketRingTheorems.SequentialKeepsOthers | c/gbenchmark/muggle_thread_trans_write/muggle_thread_trans_write.cpp:39-44 | A slot into which no appended ticket falls keeps its content |
| TicketRingTheorems.WindowIntact | c/gbenchmark/muggle_thread_trans_write/muggle_thread_trans_write.cpp:118-129 | Every published ticket less than one capacity behind next is still in its slot |
| TicketRingTheorems.StampsIncrease | c/gbenchmark/muggle_thread_trans_write/muggle_thread_trans_write.cpp:120-121 | No step puts an older ticket into a slot, with no more writers with work than slots |
| TicketRingOverflow.RegressesIffTooManyWriters | c/gbenchmark/muggle_thread_trans_write/muggle_thread_trans_write.cpp:118-121 | Some run puts an older ticket into a slot if and only if more writers have work than there are slots |
| TicketRingTheorems.StepRefinesAppend | c/gbenchmark/muggle_thread_trans_write/muggle_thread_trans_write.cpp:114-130 | Every step is a stutter or one AsignInLock of the sequential program, the latter exactly for a successful exchange by the holder of the ticket at the cursor |
| TicketRingTheorems.QuiescentIsSequential | c/gbenchmark/muggle_thread_trans_write/muggle_thread_trans_write.cpp:114-130 | Whenever no writer is inside an iteration, a run with a strong exchange has the counters and the ring of the sequential program |
| TicketRingTheorems.RestartNeedsNoReset | cpp/gbenchmark/std_atomic/std_atomic.cpp:10-15 | The quiescent end of a run is a legal start of the next without resetting the counters |
| TicketRingReuse.SuccessiveRuns | cpp/gbenchmark/std_atomic/std_atomic.cpp:82-95 | After any number of complete runs without a reset the counters agree, have advanced by all iterations, and the ring is that of one sequential run |
| TicketRingProgress.NeverStuck | c/gbenchmark/muggle_thread_trans_write/muggle_thread_trans_write.cpp:114-130 | While nothing is dropped, every state that is not final has an enabled step that is not a failed attempt |
| TicketRingProgress.ThreeStepsPerIteration | c/gbenchmark/muggle_thread_trans_write/muggle_thread_trans_write.cpp:114-130 | A run has at most three productive steps per iteration, and that many exactly when it is complete |
| TicketRingProgress.Completes | c/gbenchmark/muggle_thread_trans_write/muggle_thread_trans_write.cpp:123-129 | From every state without a dropped ticket some continuation without spurious failures ends all iterations |
| TicketRingProgress.CompleteRunPublishesAll | c/gbenchmark/muggle_thread_trans_write/muggle_thread_trans_write.cpp:114-130 | A complete strong run ends with cursor and next both advanced by the number of iterations, all tickets published |
| TicketRingProgress.CompleteUniformRun | c/gbenchmark/muggle_thread_trans_write/muggle_thread_trans_write.cpp:132-135 | T writers with n iterations each advance both counters by T*n and store and publish that many tickets |
| TicketRingProgress.DropStallsForever | c/gbenchmark/muggle_thread_trans_write/muggle_thread_trans_write.cpp:123-129 | After a drop at p the cursor stays at p, nothing more is published, next never exceeds p + 1 + T, and the run is complete only if p was the last ticket |
| TicketRingProgress.WeakCasStallsIffTwoIterations | c/gbenchmark/muggle_thread_trans_write/muggle_thread_trans_write.cpp:123-129 | A run can reach a state that no continuation completes exactly when there are two or more iterations; never without spurious failures |
| TicketRingInt32.Int32RefinesUnbounded | c/gbenchmark/muggle_thread_trans_write/muggle_thread_trans_write.cpp:118-124 | With fewer than 2^32 writers every schedule in 32-bit arithmetic runs exactly as in unbounded arithmetic and ends in the wrapped image |
| TicketRingInt32.CompleteInt32Run | c/gbenchmark/muggle_thread_trans_write/muggle_thread_trans_write.cpp:114-130 | A complete strong run in 32-bit arithmetic ends with both counters the image of base plus iterations |
| LockedRing.FreeLockMeansSequential | c/gbenchmark/muggle_thread_trans_write/muggle_thread_trans_write.cpp:68-110 | Between lock and unlock one writer at a time; whenever the lock is free the ring is the sequential one; at all times every ticket below the cursor has been stored |
| LockedRing.NeverStuck | c/gbenchmark/muggle_thread_trans_write/muggle_thread_trans_write.cpp:68-76 | Until all iterations have ended some writer can step: the lock's holder, or one that takes the free lock |
| LockedRing.SixStepsPerIteration | c/gbenchmark/muggle_thread_trans_write/muggle_thread_trans_write.cpp:68-110 | A run of the lock form has at most six steps per iteration, and that many exactly when all iterations have ended |
| LockedRing.RunsCanComplete | c/gbenchmark/muggle_thread_trans_write/muggle_thread_trans_write.cpp:68-110 | From every reachable state some continuation ends all iterations, and a state with no enabled step has ended them |
| LockedRing.CasAndLockAgree | c/gbenchmark/muggle_thread_trans_write/muggle_thread_trans_write.cpp:84-130 | The lock form and the compare-and-exchange form, run to completion in any interleavings, end with the same counter and ring |
| ThreadTransWrite.ThreadTransWriteFixture.SetUp | c/gbenchmark/muggle_thread_trans_write/muggle_thread_trans_write.cpp:17-32 | Fills the payload table and resets the counters, leaving the pointers in the ring as they were |
| ThreadTransWrite.ThreadTransWriteFixture.AsignInLock | c/gbenchmark/muggle_thread_trans_write/muggle_thread_trans_write.cpp:39-44 | One append of the true ticket that the 32-bit cursor stands for |
| ThreadTransWrite.ThreadTransWriteFixture.Single | c/gbenchmark/muggle_thread_trans_write/muggle_thread_trans_write.cpp:59-65 | n appends leave the sequential ring of the n tickets and a pointer in each of their slots |
| ThreadTransWrite.ThreadTransWriteFixture.FetchAdd | c/gbenchmark/muggle_thread_trans_write/muggle_thread_trans_write.cpp:118 | Draws the next ticket and wraps the counter |
| ThreadTransWrite.ThreadTransWriteFixture.StoreSlot | c/gbenchmark/muggle_thread_trans_write/muggle_thread_trans_write.cpp:120-121 | Stores into the masked slot and no other |
| ThreadTransWrite.ThreadTransWriteFixture.TryPublish | c/gbenchmark/muggle_thread_trans_write/muggle_thread_trans_write.cpp:123-129 | One evaluation of the loop condition, with a possible spurious failure, and what follows it |
| ThreadTransWrite.ThreadTransWriteFixture.RunCas | c/gbenchmark/muggle_thread_trans_write/muggle_thread_trans_write.cpp:114-131 | Any interleaving of the threads executed on the fields is a run of the protocol, and the ring has the pointers of exactly the tickets it stored on top of the old ones |
| ThreadTransWrite.ThreadTransWriteFixture.CasBenchmark | c/gbenchmark/muggle_thread_trans_write/muggle_thread_trans_write.cpp:114-135 | From any SetUp, a complete strong schedule leaves the sequential ring, all tickets published, both counters at the total, and a pointer in the slot of every ticket and no other new one |
| AtomicTickets.StdAtomicFixture.SetUp | cpp/gbenchmark/std_atomic/std_atomic.cpp:10-15 | New threads, the ticket counters untouched |
| AtomicTickets.StdAtomicFixture.DrawTicket | cpp/gbenchmark/std_atomic/std_atomic.cpp:85 | A draw without payload is a draw and a store nobody reads |
| AtomicTickets.StdAtomicFixture.TryAdvance | c/gbenchmark/muggle_atomic/muggle_atomic.cpp:54-60 | One attempt to move the cursor |
| AtomicTickets.StdAtomicFixture.CasBenchmark | cpp/gbenchmark/std_atomic/std_atomic.cpp:82-95 | From counters that both hold the image of any b, a complete strong schedule leaves both at the image of b plus the iterations |
| BitMask.BitAndIsBitwise | c/benchmark/modulo/benchmark_modulo.c:17-21 | The modelled & is the bitwise conjunction of binary representations |
| BitMask.MaskIsModulo | c/benchmark/modulo/benchmark_modulo.c:7-21 | idx & (cap - 1) equals idx % cap for every index and every power of two |
| BitMask.MaskIsModuloIffPowerOfTwo | c/benchmark/modulo/benchmark_modulo.c:7-21 | The equality holds for all indices if and only if the capacity is a power of two |
| BitMask.WrappedSlot | c/gbenchmark/muggle_thread_trans_write/muggle_thread_trans_write.cpp:120 | Masking the wrapped ticket gives the slot of the true ticket |
| ModuloBenchmark.Globals.FuncModulo | c/benchmark/modulo/benchmark_modulo.c:7-10 | Stores the slot reached by counting idx slots round a ring of cap, computed by division |
| ModuloBenchmark.Globals.FuncIdxInPowOf2Ring | c/benchmark/modulo/benchmark_modulo.c:12-15 | Stores the same slot by masking |
| ModuloBenchmark.Globals.FuncIdxInPowOf2RingCapSub1 | c/benchmark/modulo/benchmark_modulo.c:17-21 | Stores the same slot by masking with the precomputed predecessor |
| ModuloBenchmark.SlotIsRemainder | c/benchmark/modulo/benchmark_modulo.c:7-10 | Counting round the ring slot by slot ends at the remainder, for every index and capacity |
| WorkSlices.JavaProducerIds | java/LatencyBenchmark/LatencyBenchmarkCommon/src/main/java/com/muggle/latencybenchmark/LatencyBenchmarkThreadTransProducer.java:33-37 | The nested loops visit the producer's block of ids, consecutively |
| WorkSlices.JavaTiles | java/LatencyBenchmark/LatencyBenchmarkCommon/src/main/java/com/muggle/latencybenchmark/LatencyBenchmarkThreadTransProducer.java:33-37 | Producer and position map bijectively onto [0, recordCount) |
| WorkSlices.JavaPosition | java/LatencyBenchmark/LatencyBenchmarkCommon/src/main/java/com/muggle/latencybenchmark/LatencyBenchmarkThreadTransProducer.java:33-37 | Producer and position are the quotient and the remainder of the id by the producer's count |
| WorkSlices.GoProducerIds | golang/thread_trans/thread_trans_channel/main.go:66-68 | The nested loops visit the slice's ids, loop after loop |
| WorkSlices.GoTiles | golang/thread_trans/thread_trans_channel/main.go:113-118 | The slices of all loops map bijectively onto [0, Loop*CntPerLoop), the last taking the remainder |
| WorkSlices.GoDivision | golang/thread_trans/thread_trans_channel/main.go:113-118 | All producers have equal shares but the last, which has the remainder of each loop besides; smaller producer numbers have smaller offsets; each producer's ids ascend |
| JavaTheorems.MarkerComesLast | java/LatencyBenchmark/LatencyBenchmarkArrayBlockingQueue/src/main/java/com/muggle/LatencyBenchmark/LatencyBenchmarkArrayBlockingQueue.java:63-69 | A marker is taken only when every message has been sent and taken |
| JavaTheorems.MarkerTestIsExact | java/LatencyBenchmark/LatencyBenchmarkCommon/src/main/java/com/muggle/latencybenchmark/LatencyBenchmarkThreadTransConsumer.java:36-38 | Of the messages that enter the queue exactly the end markers have id -1, and the others an index into the records |
| JavaTheorems.ProducerOrderKept | java/LatencyBenchmark/LatencyBenchmarkCommon/src/main/java/com/muggle/latencybenchmark/LatencyBenchmarkThreadTransProducer.java:35-42 | Messages of one producer leave the queue in the order it put them |
| JavaTheorems.JavaIdsLeaveInOrder | java/LatencyBenchmark/LatencyBenchmarkCommon/src/main/java/com/muggle/latencybenchmark/LatencyBenchmarkThreadTransProducer.java:33-42 | The ids taken from one producer increase |
| JavaTheorems.AtMostOnce | java/LatencyBenchmark/LatencyBenchmarkCommon/src/main/java/com/muggle/latencybenchmark/LatencyBenchmarkThreadTransConsumer.java:27-47 | At no time has an id been delivered twice |
| JavaTheorems.RunDeliversExactlyOnce | java/LatencyBenchmark/LatencyBenchmarkCommon/src/main/java/com/muggle/latencybenchmark/LatencyBenchmarkThreadTrans.java:138-168 | When run returns the queue is empty, every id was delivered exactly once, every consumer took exactly one marker, last, and the total is recordCount |
| JavaClock.ClockAddsDelays | java/LatencyBenchmark/LatencyBenchmarkCommon/src/main/java/com/muggle/latencybenchmark/LatencyBenchmarkThreadTransProducer.java:38-44 | The clock at any point of a run is its start plus the delays of the clock steps made so far |
| JavaClock.BeginReading | java/LatencyBenchmark/LatencyBenchmarkCommon/src/main/java/com/muggle/latencybenchmark/LatencyBenchmarkThreadTransProducer.java:38-50 | Whatever the run, a begin record holds the clock just after the step that read it before the put |
| JavaClock.EndReading | java/LatencyBenchmark/LatencyBenchmarkCommon/src/main/java/com/muggle/latencybenchmark/LatencyBenchmarkThreadTransProducer.java:44-58 | Whatever the run, an end record holds the clock just after the step that read it after the put |
| JavaClock.ReadReading | java/LatencyBenchmark/LatencyBenchmarkCommon/src/main/java/com/muggle/latencybenchmark/LatencyBenchmarkThreadTransConsumer.java:39-45 | Whatever the run, a read record holds the clock just after the step of the consumer that took the message |
| JavaTheorems.RunRecordsAllTimes | java/LatencyBenchmark/LatencyBenchmarkCommon/src/main/java/com/muggle/latencybenchmark/LatencyBenchmarkThreadTransConsumer.java:39-45 | When run returns no record is null, writes end and reads happen after the write began, and each reading is the clock just after a begin, an end or a read step of that message |
| JavaTheorems.NeverStuck | java/LatencyBenchmark/LatencyBenchmarkCommon/src/main/java/com/muggle/latencybenchmark/LatencyBenchmarkThreadTrans.java:146-161 | Until run returns some thread can step |
| JavaTheorems.AllRunsEquallyLong | java/LatencyBenchmark/LatencyBenchmarkCommon/src/main/java/com/muggle/latencybenchmark/LatencyBenchmarkThreadTrans.java:138-168 | Every run has at most a fixed number of steps, reached exactly when run has returned |
| JavaTheorems.MaximalRunsReturn | java/LatencyBenchmark/LatencyBenchmarkCommon/src/main/java/com/muggle/latencybenchmark/LatencyBenchmarkThreadTrans.java:146-161 | A state has no enabled step if and only if run has returned |
| JavaRun.LatencyBenchmarkHandle.AddAction | java/LatencyBenchmark/LatencyBenchmarkCommon/src/main/java/com/muggle/latencybenchmark/LatencyBenchmarkHandle.java:48-53 | Registers a name and a new array of nulls, leaving other actions alone |
| JavaRun.LatencyBenchmarkThreadTrans.constructor | java/LatencyBenchmark/LatencyBenchmarkCommon/src/main/java/com/muggle/latencybenchmark/LatencyBenchmarkThreadTrans.java:63-82 | Sets up recordCount and three distinct record arrays, the state in which run begins |
| JavaRun.LatencyBenchmarkThreadTrans.SumTotalRead | java/LatencyBenchmark/LatencyBenchmarkCommon/src/main/java/com/muggle/latencybenchmark/LatencyBenchmarkThreadTrans.java:164-167 | The loop computes the sum of the consumers' counters |
| JavaRun.LatencyBenchmarkThreadTrans.EndWrite | java/LatencyBenchmark/LatencyBenchmarkCommon/src/main/java/com/muggle/latencybenchmark/LatencyBenchmarkThreadTransProducer.java:46-58 | Writes the begin and the end record of the message's id |
| JavaRun.LatencyBenchmarkThreadTrans.RecordRead | java/LatencyBenchmark/LatencyBenchmarkCommon/src/main/java/com/muggle/latencybenchmark/LatencyBenchmarkThreadTransConsumer.java:39-47 | Writes the read record and counts it |
| JavaRun.LatencyBenchmarkThreadTrans.Run | java/LatencyBenchmark/LatencyBenchmarkCommon/src/main/java/com/muggle/latencybenchmark/LatencyBenchmarkThreadTrans.java:87-169 | Any interleaving executed on the fields and arrays is a run of the protocol |
| JavaReport.TimedRecordsReport | java/LatencyBenchmark/LatencyBenchmarkCommon/src/main/java/com/muggle/latencybenchmark/LatencyBenchmarkHandle.java:174-194 | Rows over complete records meet no null, show true nonnegative differences and one average between the smallest and the largest |
| JavaReport.TimedRecordsSortedRow | java/LatencyBenchmark/LatencyBenchmarkCommon/src/main/java/com/muggle/latencybenchmark/LatencyBenchmarkHandle.java:192-221 | Over timed records, zero readings included, each column c of both rows shows the element at the exact index of quantile c*step, of the elapsed times as they are and in ascending order; the sorted row goes from their minimum to their maximum |
| JavaReport.CompletedRunIsTimed | java/LatencyBenchmark/LatencyBenchmarkCommon/src/main/java/com/muggle/latencybenchmark/LatencyBenchmarkThreadTrans.java:184-193 | After run has returned both reported pairs of actions have complete, ordered records |
| JavaReport.TimedAverage | java/LatencyBenchmark/LatencyBenchmarkCommon/src/main/java/com/muggle/latencybenchmark/LatencyBenchmarkHandle.java:180-190 | The average of timed records is their true mean rounded down, which counts nothing for a zero reading, and lies between zero and the time the run took |
| JavaReport.BenchmarkAndReport | java/LatencyBenchmark/LatencyBenchmarkArrayBlockingQueue/src/main/java/com/muggle/LatencyBenchmark/LatencyBenchmarkArrayBlockingQueue.java:97-113 | From the constructor to the report: whatever the interleaving, the total is recordCount, each reading is the clock just after its step of the schedule, and each pair of rows shows the elapsed times at the exact indices of the quantiles, by index and sorted, with their mean; without records it divides by zero |
| GoShutdown.NilsComeLast | golang/thread_trans/thread_trans_channel/main.go:125-143 | If all ready values were received in the ready loop, nils come only after every producer has finished, and as many are still to be sent as consumers are in the receive loop |
| GoClock.ClockAddsDelays | golang/thread_trans/thread_trans_channel/main.go:68-73 | The clock at any point of a run is its start plus the delays of the clock steps made so far |
| GoClock.BeginReading | golang/thread_trans/thread_trans_channel/main.go:71 | Whatever the run, the first timestamp of a block is the clock just after the step that took it before the send |
| GoClock.EndReading | golang/thread_trans/thread_trans_channel/main.go:73 | Whatever the run, the second timestamp is the clock just after the step that took it after the send |
| GoClock.ReceiptReading | golang/thread_trans/thread_trans_channel/main.go:45 | Whatever the run, the third timestamp is the clock just after the step of the consumer that holds the block |
| GoSafety.PublishedCount | golang/thread_trans/thread_trans_channel/main.go:39-48 | What a consumer has written to consumer_read_num is the number of blocks handed over to it |
| GoShutdown.CleanRunDeliversAll | golang/thread_trans/thread_trans_channel/main.go:106-148 | Under the same condition main leaves the join loop with every block counted, each consumer's number that of the blocks it received, and the three timestamps of every block set in order, each by its own step of the schedule |
| GoShutdown.CleanNeverStuck | golang/thread_trans/thread_trans_channel/main.go:125-143 | Under the same condition some goroutine can step until main leaves the join loop |
| GoShutdown.ReadyLoopNeverStuck | golang/thread_trans/thread_trans_channel/main.go:106-111 | In the ready loop some consumer can always draw or send its value, for every number of consumers |
| GoShutdown.PendingReadyDeadlocks | golang/thread_trans/thread_trans_channel/main.go:106-137 | From any state with an unreceived ready value some run deadlocks |
| GoShutdown.DeadlockIffReadyPending | golang/thread_trans/thread_trans_channel/main.go:106-143 | From the end of the ready loop a deadlock is reachable if and only if a ready value is still unreceived |
| GoNecessity.CanDeadlockIffTwoConsumers | golang/thread_trans/thread_trans_channel/main.go:94-143 | From the start a deadlock is reachable if and only if there are two or more consumers |
| GoShutdown.OneConsumerIsClean | golang/thread_trans/thread_trans_channel/main.go:106-111 | With one consumer the condition always holds |
| GoShutdown.RunsAreFinite | golang/thread_trans/thread_trans_channel/main.go:86-143 | Every run is bounded; under the condition the runs of full length are those that have left the join loop |
| GoNecessity.ReadyLoopCanEndEarly | golang/thread_trans/thread_trans_channel/main.go:35-36 | For every n from two on the ready loop can end with value 1 unreceived |
| GoNecessity.StaleReadyCountedAsProducer | golang/thread_trans/thread_trans_channel/main.go:128-132 | For every n from two on a run counts a finished producer although none has sent a block |
| GoNecessity.AnyProducerCanBeLeftOut | golang/thread_trans/thread_trans_channel/main.go:128-137 | For two or more consumers and any one of the producers, some run leaves the join loop with all others finished, that one before its first block, and exactly its blocks not counted |
| GoNecessity.BlocksCanBeLostIffTwoConsumers | golang/thread_trans/thread_trans_channel/main.go:106-148 | Some run leaves the join loop with blocks not counted if and only if there are two or more consumers and some block |
| GoNecessity.OneProducerCanLoseEverything | golang/thread_trans/thread_trans_channel/main.go:196-200 | With one writer and two or more readers main can leave the join loop with nothing sent or counted |
| GoNecessity.ConditionCanFailIffTwoConsumers | golang/thread_trans/thread_trans_channel/main.go:106-111 | The condition can fail exactly for two or more consumers |
| GoRun.BenchmarkWr.constructor | golang/thread_trans/thread_trans_channel/main.go:91-104 | Allocates the blocks and counters of the state in which the goroutines start |
| GoRun.BenchmarkWr.BeginSend | golang/thread_trans/thread_trans_channel/main.go:68-71 | Sets the block's index and first timestamp, and of no other block |
| GoRun.BenchmarkWr.EndSend | golang/thread_trans/thread_trans_channel/main.go:73 | Sets the second timestamp of the block sent |
| GoRun.BenchmarkWr.StampBlock | golang/thread_trans/thread_trans_channel/main.go:41-46 | Sets the third timestamp of the block received and counts it |
| GoRun.BenchmarkWr.PublishCount | golang/thread_trans/thread_trans_channel/main.go:48 | Writes the count at the consumer's own index |
| GoRun.BenchmarkWr.Run | golang/thread_trans/thread_trans_channel/main.go:86-143 | Any interleaving executed on the fields and arrays is a run of the protocol |
| GoRun.StampedBlocksReport | golang/latency_common/thread_trans_report.go:36-53 | Rows over stamped blocks, for either pair of timestamps, show the nonnegative true differences at the exact indices of the quantiles, by index and sorted from minimum to maximum |
| GoRun.FinishAndReport | golang/thread_trans/thread_trans_channel/main.go:126-161 | Under the condition any run to the end of the join loop leaves all blocks counted and each stamped by its own steps of the schedule, and all four rows report them; without blocks there is no row |
| Quantile.RoundAt | java/LatencyBenchmark/LatencyBenchmarkCommon/src/main/java/com/muggle/latencybenchmark/LatencyBenchmarkHandle.java:209 | Rounding to a double is rounding the scaled significand to an integer |
| Quantile.PositionsIncrease | golang/latency_common/thread_trans_report.go:48-49 | Positions do not decrease from quantile to quantile |
| QuantileExact.PositionFormula | java/LatencyBenchmark/LatencyBenchmarkCommon/src/main/java/com/muggle/latencybenchmark/LatencyBenchmarkHandle.java:208-209 | The position is a valid index, given in integer arithmetic: the floor of i*cnt/100, and one less exactly when 100 divides i*cnt > 0 and the double nearest to i/100 falls short by more than half the spacing of doubles below the quotient |
| QuantileExact.OneLessOccurs | java/LatencyBenchmark/LatencyBenchmarkCommon/src/main/java/com/muggle/latencybenchmark/LatencyBenchmarkHandle.java:209 | Quantile 29 of 100 records is one of these, read at position 28 |
| LatencyReport.SortingIsUnique | golang/latency_common/thread_trans_report.go:42-44 | Any ascending permutation is the same sequence, so the library's sort determines the row |
| QuantileRows.SortedRowSamples | golang/latency_common/thread_trans_report.go:42-53 | Samples of sorted data are the elements at the exact indices, ascend from the minimum of the data and end at its maximum |
| QuantileRows.RowSamples | java/LatencyBenchmark/LatencyBenchmarkCommon/src/main/java/com/muggle/latencybenchmark/LatencyBenchmarkHandle.java:208-209 | Column c of a row is quantile c*step, for all multiples below 100, and holds the element at the exact integer index that floating point gives |
| LatencyReport.ElapsedIsDifference | java/LatencyBenchmark/LatencyBenchmarkCommon/src/main/java/com/muggle/latencybenchmark/LatencyBenchmarkHandle.java:181-188 | An elapsed time is the true difference in nanoseconds, or the sentinel for an end record without a time |
| LatencyReport.RowFailsIff | java/LatencyBenchmark/LatencyBenchmarkCommon/src/main/java/com/muggle/latencybenchmark/LatencyBenchmarkHandle.java:177-190 | A row fails on a null exactly when a record that it needs is missing, and on division by zero exactly without records |
| LatencyReport.RowAlignsIffNoSentinel | java/LatencyBenchmark/LatencyBenchmarkCommon/src/main/java/com/muggle/latencybenchmark/LatencyBenchmarkHandle.java:208-215 | A row has the header's number of separators if and only if no sampled value is the sentinel |
| LatencyReport.AverageBetween | java/LatencyBenchmark/LatencyBenchmarkCommon/src/main/java/com/muggle/latencybenchmark/LatencyBenchmarkHandle.java:180-190 | Without missing records and overflow the average lies between any bounds of the elapsed times |
| LatencyReport.AverageIsMean | java/LatencyBenchmark/LatencyBenchmarkCommon/src/main/java/com/muggle/latencybenchmark/LatencyBenchmarkHandle.java:180-190 | Without overflow the average is the true mean of what the records add to the sum, rounded down |
| LatencyReport.FillElapsed | java/LatencyBenchmark/LatencyBenchmarkCommon/src/main/java/com/muggle/latencybenchmark/LatencyBenchmarkHandle.java:177-189 | Elapsed times and the wrapping sum, or a null met exactly when a needed record is null |
| LatencyReport.GenLatencyReportBody | java/LatencyBenchmark/LatencyBenchmarkCommon/src/main/java/com/muggle/latencybenchmark/LatencyBenchmarkHandle.java:168-222 | The row, the null pointer or the division by zero that the records determine |
| LatencyReport.HeadColumns | golang/latency_common/thread_trans_report.go:19-24 | The header's columns |
| LatencyReport.GenThreadLantencyReportsBody | golang/latency_common/thread_trans_report.go:28-56 | The row that the timestamps determine, or the index panic of an empty run |

## Left out

- Weak memory ordering: atomic operations are sequentially consistent steps. The writer's thread-local statements between two atomic operations (the loop test, resetting the expected value, computing the index) belong to the step before them.
- MUGGLE_IDX_IN_POW_OF_2_RING, muggle_next_pow_of_2, the locks and Google Benchmark are not part of this model. The macro is taken to mask with the capacity minus one, as the macro in c/benchmark/modulo/benchmark_modulo.c:17 does; locks are known by mutual exclusion; the per-thread calls of SetUp happen once, before the threads step.
- Ticket arithmetic: `pos + 1` is two's-complement wrap-around in the model, which C leaves undefined for a plain int at its maximum.
- LockedRing: does not model 32-bit wrap-around of the cursor, which ThreadTransWriteFixture.AsignInLock covers one append at a time.
- Java interrupts and their catch blocks, allocation failure, sleeping, the start of a thread being slower than its creation, and console output.
- Overflow of rounds * records * producers in Java ints and of Loop * CntPerLoop in Go: the products are unbounded.
- ArrayBlockingQueue and Go channels are known by their contracts, bounded FIFO and rendezvous; Arrays.sort and sort.Ints by the unique ascending permutation.
- Doubles: exponent range, subnormals and infinities, which positions below 2^45 do not reach; int to double conversions are exact there.
- Reports: formatting of numbers, the case name and configuration columns, files, and genTimestampRecordsReport; the loop of genLatencyReport over the action pairs is the two calls per pair that JavaReport.ReportPair makes.
- The store and fetch-add benchmarks of the two atomics fixtures, the Disruptor driver, pipes and sockets, WebSocket programs, JSON and command-line configuration, and the deprecated C++ programs.
