/** Progress of the ticketed publish: when it completes, and what one spurious failure costs. */
module TicketRingProgress {
  import opened Sequences
  import opened TicketRing
  import opened TicketRingSafety
  import opened TicketRingTheorems

  /** Every writer has ended its last iteration. */
  predicate Final(s: State) {
    forall i :: 0 <= i < |s.threads| ==> s.threads[i] == Thread(Idle, 0)
  }

  /** The steps a writer has still to make, not counting attempts that fail. */
  function Steps(th: Thread): int {
    3 * th.left + match th.pc case Idle => 0 case Ticketed(_) => 2 case Stored(_) => 1
  }

  function Measure(s: State): int {
    SumBy(s.threads, Steps)
  }

  /** A Cas step that leaves the writer in its retry loop. */
  predicate Retries(s: State, e: Event)
    requires Enabled(s, e)
  {
    e.Cas? && s.threads[e.i].pc.pos != s.cursor
  }

  /** Every step but a failed attempt uses up exactly one unit of the measure. */
  lemma StepMeasure(s: State, e: Event)
    requires Enabled(s, e)
    ensures Measure(Apply(Unbounded, s, e)) == Measure(s) - (if Retries(s, e) then 0 else 1)
  {
    var s' := Apply(Unbounded, s, e);
    if !Retries(s, e) {
      SumByUpdate(s.threads, e.i, s'.threads[e.i], Steps);
    }
  }

  /** The number of steps of a run that are not failed attempts. */
  function Productive(s: State, evs: seq<Event>): nat
    requires Admissible(Unbounded, s, evs)
    decreases |evs|
  {
    if evs == [] then 0
    else (if Retries(s, evs[0]) then 0 else 1) + Productive(Apply(Unbounded, s, evs[0]), evs[1..])
  }

  lemma {:induction false} RunMeasure(s: State, evs: seq<Event>)
    requires Admissible(Unbounded, s, evs)
    ensures Measure(Exec(Unbounded, s, evs)) == Measure(s) - Productive(s, evs)
    decreases |evs|
  {
    if evs == [] {
    } else {
      StepMeasure(s, evs[0]);
      RunMeasure(Apply(Unbounded, s, evs[0]), evs[1..]);
    }
  }

  lemma MeasureOfFinal(s: State)
    ensures Measure(s) >= 0
    ensures Measure(s) == 0 <==> Final(s)
  {
    SumByNonNegative(s.threads, Steps);
    if Final(s) {
      SumByBounds(s.threads, Steps, 0, 0);
    } else {
      var i :| 0 <= i < |s.threads| && s.threads[i] != Thread(Idle, 0);
      SumByAtLeast(s.threads, Steps, i);
    }
  }

  lemma MeasureOfInit(s: State)
    requires Init(s)
    ensures Measure(s) == 3 * SumBy(s.threads, Left)
  {
    TripleLeft(s.threads);
  }

  lemma {:induction false} TripleLeft(ths: seq<Thread>)
    requires forall i :: 0 <= i < |ths| ==> ths[i].pc.Idle?
    ensures SumBy(ths, Steps) == 3 * SumBy(ths, Left)
  {
    if ths == [] {
    } else {
      TripleLeft(ths[1..]);
    }
  }

  /**
   The number of productive steps of a run is at most three per iteration, and it is exactly that for
   the complete runs and for no others.
   */
  lemma ThreeStepsPerIteration(s0: State, evs: seq<Event>)
    requires Init(s0) && Admissible(Unbounded, s0, evs)
    ensures Productive(s0, evs) <= 3 * SumBy(s0.threads, Left)
    ensures Productive(s0, evs) == 3 * SumBy(s0.threads, Left) <==> Final(Exec(Unbounded, s0, evs))
  {
    RunMeasure(s0, evs);
    MeasureOfFinal(Exec(Unbounded, s0, evs));
    MeasureOfInit(s0);
  }

  /** While nothing has been dropped, a run that is not complete can always make a productive step. */
  lemma NeverStuck(s0: State, s: State) returns (e: Event)
    requires Inv(s0, s) && s.dropped == [] && !Final(s)
    ensures Enabled(s, e) && Strong([e]) && !Retries(s, e)
  {
    var i :| 0 <= i < |s.threads| && s.threads[i] != Thread(Idle, 0);
    match s.threads[i].pc {
      case Idle => e := Take(i);
      case Ticketed(_) => e := Store(i);
      case Stored(t) =>
        assert Holds(s, i, t);
        assert Held(s, s.cursor);
        var j :| Holds(s, j, s.cursor);
        e := if s.threads[j].pc.Ticketed? then Store(j) else Cas(j, false);
    }
  }

  /** From every state of a strong run some continuation completes it. */
  lemma {:induction false} Completes(s0: State, s: State) returns (more: seq<Event>)
    requires Inv(s0, s) && s.dropped == []
    ensures Admissible(Unbounded, s, more) && Strong(more) && Final(Exec(Unbounded, s, more))
    decreases Measure(s)
  {
    MeasureOfFinal(s);
    if Final(s) {
      more := [];
    } else {
      var e := NeverStuck(s0, s);
      StepMeasure(s, e);
      StepKeepsInv(s0, s, e);
      assert [e][0] == e;
      var s' := Apply(Unbounded, s, e);
      MeasureOfFinal(s');
      var rest := Completes(s0, s');
      more := [e] + rest;
      assert more[1..] == rest;
      assert forall k :: 1 <= k < |more| ==> more[k] == rest[k - 1];
    }
  }

  /** A complete strong run has published one ticket per iteration, and all of them. */
  lemma CompleteRunPublishesAll(s0: State, evs: seq<Event>)
    requires Init(s0) && Admissible(Unbounded, s0, evs) && Strong(evs)
    requires Final(Exec(Unbounded, s0, evs))
    ensures var s := Exec(Unbounded, s0, evs);
      && s.cursor == s.next == s0.cursor + SumBy(s0.threads, Left)
      && s0.cursor <= s.cursor && s.published == Range(s0.cursor, s.cursor)
  {
    ReachableInv(s0, evs);
    StrongNeverDrops(s0, evs);
    var s := Exec(Unbounded, s0, evs);
    NobodyBusy(s);
    SumByBounds(s.threads, Left, 0, 0);
  }

  /** T writers with n iterations each: a complete strong run moves both counters on by T*n. */
  lemma CompleteUniformRun(s0: State, evs: seq<Event>, n: nat)
    requires Init(s0) && Admissible(Unbounded, s0, evs) && Strong(evs)
    requires forall i :: 0 <= i < |s0.threads| ==> s0.threads[i].left == n
    requires Final(Exec(Unbounded, s0, evs))
    ensures var s := Exec(Unbounded, s0, evs);
      && s.cursor == s.next == s0.cursor + |s0.threads| * n
      && |s.published| == |s0.threads| * n == |s.written|
  {
    CompleteRunPublishesAll(s0, evs);
    SumByBounds(s0.threads, Left, n, n);
    WrittenOncePerTicket(s0, evs);
  }

  lemma WrittenOncePerTicket(s0: State, evs: seq<Event>)
    requires Init(s0) && Admissible(Unbounded, s0, evs) && Final(Exec(Unbounded, s0, evs))
    ensures |Exec(Unbounded, s0, evs).written| == SumBy(s0.threads, Left)
  {
    RunCountsStores(s0, evs);
    var s := Exec(Unbounded, s0, evs);
    SumByBounds(s0.threads, NotStored, 0, 0);
    SumByBounds(s.threads, NotStored, 0, 0);
    SumByBounds(s.threads, Left, 0, 0);
  }

  function NotStored(th: Thread): int { if th.pc.Ticketed? then 1 else 0 }

  /** Every iteration that has begun has stored, or is about to. */
  lemma {:induction false} RunCountsStores(s: State, evs: seq<Event>)
    requires Admissible(Unbounded, s, evs)
    ensures var s' := Exec(Unbounded, s, evs);
      |s'.written| + SumBy(s'.threads, NotStored) + SumBy(s'.threads, Left)
        == |s.written| + SumBy(s.threads, NotStored) + SumBy(s.threads, Left)
    decreases |evs|
  {
    if evs == [] {
    } else {
      var s' := Apply(Unbounded, s, evs[0]);
      if s'.threads != s.threads {
        SumByUpdate(s.threads, evs[0].i, s'.threads[evs[0].i], NotStored);
        SumByUpdate(s.threads, evs[0].i, s'.threads[evs[0].i], Left);
      }
      RunCountsStores(s', evs[1..]);
    }
  }

  // ----- After a spurious failure at the cursor

  lemma {:induction false} DroppedStaysDropped(s0: State, s: State, evs: seq<Event>)
    requires Inv(s0, s) && s.dropped != [] && Admissible(Unbounded, s, evs)
    ensures var s' := Exec(Unbounded, s, evs);
      s'.cursor == s.cursor && s'.dropped == s.dropped && s'.published == s.published
    decreases |evs|
  {
    if evs == [] {
    } else {
      var e := evs[0];
      if e.Cas? { assert Holds(s, e.i, s.threads[e.i].pc.pos); }
      StepKeepsInv(s0, s, e);
      DroppedStaysDropped(s0, Apply(Unbounded, s, e), evs[1..]);
    }
  }

  /**
   Once a ticket p has been dropped, the cursor stays at p and nothing more is published; at most
   one further ticket per writer is ever taken; and the run can be completed only if it already is,
   that is, only if p was the last ticket of all.
   */
  lemma DropStallsForever(s0: State, evs: seq<Event>, more: seq<Event>)
    requires Init(s0) && Admissible(Unbounded, s0, evs)
    requires Exec(Unbounded, s0, evs).dropped != []
    requires Admissible(Unbounded, Exec(Unbounded, s0, evs), more)
    ensures var s := Exec(Unbounded, s0, evs);
      var s' := Exec(Unbounded, s, more);
      && s.dropped == [s.cursor]
      && s'.cursor == s.cursor && s'.published == s.published && s'.dropped == s.dropped
      && s'.next <= s.cursor + 1 + |s0.threads|
      && (Final(s') <==> Final(s))
      && (Final(s) <==> s.cursor == s0.cursor + SumBy(s0.threads, Left) - 1)
  {
    ReachableInv(s0, evs);
    var s := Exec(Unbounded, s0, evs);
    DroppedStaysDropped(s0, s, more);
    RunKeepsInv(s0, s, more);
    BusyAtMostAll(Exec(Unbounded, s, more));
    FinalAfterDrop(s0, s);
    FinalAfterDrop(s0, Exec(Unbounded, s, more));
  }

  /** After a drop at p the run is complete exactly when p is the last of its tickets. */
  lemma FinalAfterDrop(s0: State, s: State)
    requires Inv(s0, s) && s.dropped != []
    ensures Final(s) <==> s.cursor == s0.next + SumBy(s0.threads, Left) - 1
  {
    BusyAtMostAll(s);
    SumByNonNegative(s.threads, Left);
    if Final(s) {
      NobodyBusy(s);
      SumByBounds(s.threads, Left, 0, 0);
    } else {
      var i :| 0 <= i < |s.threads| && s.threads[i] != Thread(Idle, 0);
      SumByAtLeast(s.threads, Left, i);
      SumByAtLeast(s.threads, Busy, i);
    }
  }

  /** The run has reached a state from which no continuation completes it. */
  ghost predicate Stalls(s0: State, evs: seq<Event>) {
    && Admissible(Unbounded, s0, evs)
    && forall more :: Admissible(Unbounded, Exec(Unbounded, s0, evs), more)
         ==> !Final(Exec(Unbounded, Exec(Unbounded, s0, evs), more))
  }

  /** One writer takes a ticket, stores, and leaves the loop on a spurious failure. */
  lemma SpuriousIteration(s: State, i: nat)
    requires Quiescent(s) && i < |s.threads| && s.threads[i].left > 0
    ensures var evs := [Take(i), Store(i), Cas(i, true)];
      Admissible(Unbounded, s, evs) && Exec(Unbounded, s, evs).dropped == s.dropped + [s.cursor]
  {
    var evs := [Take(i), Store(i), Cas(i, true)];
    var s1 := Apply(Unbounded, s, Take(i));
    var s2 := Apply(Unbounded, s1, Store(i));
    var s3 := Apply(Unbounded, s2, Cas(i, true));
    assert evs[1..] == [Store(i), Cas(i, true)] && evs[1..][1..] == [Cas(i, true)] && evs[1..][1..][1..] == [];
    assert Admissible(Unbounded, s3, []) && Admissible(Unbounded, s2, [Cas(i, true)]);
    assert Exec(Unbounded, s2, [Cas(i, true)]) == s3;
    assert Exec(Unbounded, s1, [Store(i), Cas(i, true)]) == s3;
  }

  /**
   The weak compare-and-exchange makes a run able to stall for good exactly when there are two or
   more iterations altogether; with the strong one every run can be completed.
   */
  lemma WeakCasStallsIffTwoIterations(s0: State)
    requires Init(s0)
    ensures (exists evs :: Stalls(s0, evs)) <==> SumBy(s0.threads, Left) >= 2
    ensures forall evs :: Strong(evs) ==> !Stalls(s0, evs)
  {
    forall evs | Stalls(s0, evs)
      ensures SumBy(s0.threads, Left) >= 2 && !Strong(evs)
    {
      ReachableInv(s0, evs);
      var s := Exec(Unbounded, s0, evs);
      if s.dropped == [] {
        var more := Completes(s0, s);
      } else {
        assert Admissible(Unbounded, s, []);
        assert !Final(Exec(Unbounded, s, []));
        FinalAfterDrop(s0, s);
        BusyAtMostAll(s);
        SumByNonNegative(s.threads, Left);
        if Strong(evs) { StrongNeverDrops(s0, evs); }
      }
    }
    if SumBy(s0.threads, Left) >= 2 {
      if forall i :: 0 <= i < |s0.threads| ==> s0.threads[i].left == 0 {
        SumByBounds(s0.threads, Left, 0, 0);
      }
      var i: nat :| i < |s0.threads| && s0.threads[i].left > 0;
      SpuriousIteration(s0, i);
      var evs := [Take(i), Store(i), Cas(i, true)];
      forall more | Admissible(Unbounded, Exec(Unbounded, s0, evs), more)
        ensures !Final(Exec(Unbounded, Exec(Unbounded, s0, evs), more))
      {
        DropStallsForever(s0, evs, more);
        assert Exec(Unbounded, s0, evs).dropped[0] == s0.cursor;
      }
      assert Stalls(s0, evs);
    }
  }
}
