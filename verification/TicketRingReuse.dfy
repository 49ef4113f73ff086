/** Successive complete runs on the same fixture, whose counters are never reset. */
module TicketRingReuse {
  import opened Sequences
  import opened TicketRing
  import opened TicketRingSafety
  import opened TicketRingTheorems
  import opened TicketRingProgress

  /** One run: the iterations of each of its writers, and the schedule of their steps. */
  datatype Batch = Batch(lefts: seq<nat>, evs: seq<Event>)

  function Count(n: nat): int { n }

  function BatchTotal(b: Batch): int { SumBy(b.lefts, Count) }

  /** A complete strong run from the given start. */
  predicate CompleteStrongRun(s: State, b: Batch) {
    && Admissible(Unbounded, Restart(s, b.lefts), b.evs) && Strong(b.evs)
    && Final(Exec(Unbounded, Restart(s, b.lefts), b.evs))
  }

  predicate ValidBatches(s: State, batches: seq<Batch>)
    decreases |batches|
  {
    batches == [] ||
    (CompleteStrongRun(s, batches[0])
     && |batches[0].lefts| <= |s.ring|
     && ValidBatches(Exec(Unbounded, Restart(s, batches[0].lefts), batches[0].evs), batches[1..]))
  }

  function AfterBatches(s: State, batches: seq<Batch>): State
    requires ValidBatches(s, batches)
    decreases |batches|
  {
    if batches == [] then s
    else AfterBatches(Exec(Unbounded, Restart(s, batches[0].lefts), batches[0].evs), batches[1..])
  }

  lemma OneBatch(s: State, b: Batch)
    requires Init(Restart(s, [])) && CompleteStrongRun(s, b) && |b.lefts| <= |s.ring|
    ensures var s' := Exec(Unbounded, Restart(s, b.lefts), b.evs);
      && Init(Restart(s', []))
      && s.cursor <= s'.cursor == s.cursor + BatchTotal(b)
      && s'.ring == Sequential(s.ring, s.cursor, s'.cursor)
  {
    var start := Restart(s, b.lefts);
    assert Init(start);
    BusyAtMostAll(start);
    CompleteRunPublishesAll(start, b.evs);
    QuiescentIsSequential(start, b.evs);
    RestartNeedsNoReset(start, b.evs, []);
    SumByAgree(start.threads, Left, b.lefts, Count);
  }

  /**
   However many complete runs follow one another without a reset, each with its own number of writers,
   the counters agree after the last, they have advanced by the total number of iterations, and the ring
   is the one the sequential program would have produced in one go.
   */
  lemma {:induction false} SuccessiveRuns(s: State, batches: seq<Batch>)
    requires Init(Restart(s, [])) && ValidBatches(s, batches)
    ensures var s' := AfterBatches(s, batches);
      && s.cursor <= s'.cursor == s'.next == s.cursor + SumBy(batches, BatchTotal)
      && s'.ring == Sequential(s.ring, s.cursor, s'.cursor)
    decreases |batches|
  {
    if batches == [] {
    } else {
      OneBatch(s, batches[0]);
      var mid := Exec(Unbounded, Restart(s, batches[0].lefts), batches[0].evs);
      SuccessiveRuns(mid, batches[1..]);
      SequentialComposes(s.ring, s.cursor, mid.cursor, AfterBatches(s, batches).cursor);
    }
  }
}
