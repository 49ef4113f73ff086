/** What every run of the ticketed publish keeps, and what follows for the ring and the cursor. */
module TicketRingSafety {
  import opened Sequences
  import opened Arithmetic
  import opened TicketRing

  // ----- Each step keeps the invariant

  lemma ThreadsUpdate(s: State, i: nat, th: Thread)
    requires i < |s.threads|
    ensures SumBy(s.threads[i := th], Busy) == SumBy(s.threads, Busy) - Busy(s.threads[i]) + Busy(th)
    ensures SumBy(s.threads[i := th], Left) == SumBy(s.threads, Left) - Left(s.threads[i]) + Left(th)
    ensures SumBy(s.threads[i := th], Engaged) == SumBy(s.threads, Engaged) - Engaged(s.threads[i]) + Engaged(th)
  {
    SumByUpdate(s.threads, i, th, Engaged);
    SumByUpdate(s.threads, i, th, Busy);
    SumByUpdate(s.threads, i, th, Left);
  }

  lemma TakeKeepsTickets(s0: State, s: State, i: nat)
    requires Tickets(s0, s) && Enabled(s, Take(i))
    ensures Tickets(s0, Apply(Unbounded, s, Take(i)))
  {
    var s' := Apply(Unbounded, s, Take(i));
    ThreadsUpdate(s, i, s'.threads[i]);
    assert forall j, t :: j != i ==> (Holds(s', j, t) <==> Holds(s, j, t));
    assert forall t :: !Holds(s, i, t);
    assert Holds(s', i, s.next);
    BusyAtMostAll(s);
    forall t | s'.cursor + |s'.dropped| <= t < s'.next ensures Held(s', t) {
      if t < s.next {
        assert Held(s, t);
        var j :| Holds(s, j, t);
        assert Holds(s', j, t);
      }
    }
  }

  lemma StoreKeepsTickets(s0: State, s: State, i: nat)
    requires Tickets(s0, s) && Enabled(s, Store(i))
    ensures Tickets(s0, Apply(Unbounded, s, Store(i)))
  {
    var s' := Apply(Unbounded, s, Store(i));
    ThreadsUpdate(s, i, s'.threads[i]);
    assert Holds(s, i, s.threads[i].pc.pos);
    assert forall j, t :: Holds(s', j, t) <==> Holds(s, j, t);
    forall t | s'.cursor + |s'.dropped| <= t < s'.next ensures Held(s', t) {
      assert Held(s, t);
      var j :| Holds(s, j, t);
      assert Holds(s', j, t);
    }
  }

  lemma CasKeepsTickets(s0: State, s: State, i: nat, spurious: bool)
    requires Tickets(s0, s) && Enabled(s, Cas(i, spurious))
    ensures Tickets(s0, Apply(Unbounded, s, Cas(i, spurious)))
  {
    var s' := Apply(Unbounded, s, Cas(i, spurious));
    var pos := s.threads[i].pc.pos;
    assert Holds(s, i, pos);
    if pos == s.cursor {
      ThreadsUpdate(s, i, s'.threads[i]);
      assert s.dropped == [];
      assert forall j, t :: j != i ==> (Holds(s', j, t) <==> Holds(s, j, t));
      assert forall t :: !Holds(s', i, t);
      forall t | s'.cursor + |s'.dropped| <= t < s'.next ensures Held(s', t) {
        assert Held(s, t);
        var j :| Holds(s, j, t);
        assert Holds(s', j, t);
      }
      assert s'.published == Range(s0.cursor, s'.cursor);
    }
  }

  /** Two different writers inside an iteration address different slots. */
  lemma SlotsDiffer(s0: State, s: State, i: int, j: int, t: int, u: int)
    requires Tickets(s0, s) && Writers(s0) <= |s0.ring|
    requires Holds(s, i, t) && Holds(s, j, u) && i != j
    ensures t % |s.ring| != u % |s.ring|
  {
    BusyAtMostAll(s);
    assert t != u;
    CloseTicketsDiffer(t, u, |s.ring|);
  }

  lemma BusyAtMostAll(s: State)
    ensures 0 <= SumBy(s.threads, Busy) <= Writers(s) <= |s.threads|
  {
    SumByBounds(s.threads, Busy, 0, 1);
    SumByBounds(s.threads, Engaged, 0, 1);
    BusyAreEngaged(s.threads);
  }

  lemma {:induction false} BusyAreEngaged(ths: seq<Thread>)
    ensures SumBy(ths, Busy) <= SumBy(ths, Engaged)
  {
    if ths == [] {
    } else {
      BusyAreEngaged(ths[1..]);
    }
  }

  /** Tickets less than cap apart fall into different slots of a ring of cap slots. */
  lemma CloseTicketsDiffer(t: int, u: int, cap: int)
    requires cap > 0 && t != u && -cap < t - u < cap
    ensures t % cap != u % cap
  {
    if t % cap == u % cap {
      var q, q' := t / cap, u / cap;
      assert t - u == cap * q - cap * q' == cap * (q - q');
      MultipleTooSmall(cap, q - q');
    }
  }

  lemma TakeKeepsRing(s0: State, s: State, i: nat)
    requires Inv(s0, s) && Writers(s0) <= |s0.ring| && Enabled(s, Take(i))
    requires Tickets(s0, Apply(Unbounded, s, Take(i)))
    ensures RingContent(s0, Apply(Unbounded, s, Take(i)))
  {
    var s' := Apply(Unbounded, s, Take(i));
    assert forall j, k :: Occupies(s', j, k) <==> Occupies(s, j, k);
    assert forall k :: Free(s', k) ==> Free(s, k);
  }

  lemma StoreKeepsRing(s0: State, s: State, i: nat)
    requires Inv(s0, s) && Writers(s0) <= |s0.ring| && Enabled(s, Store(i))
    requires Tickets(s0, Apply(Unbounded, s, Store(i)))
    ensures RingContent(s0, Apply(Unbounded, s, Store(i)))
  {
    var s' := Apply(Unbounded, s, Store(i));
    var pos := s.threads[i].pc.pos;
    assert Holds(s, i, pos);
    assert forall j, k :: j != i ==> (Occupies(s', j, k) <==> Occupies(s, j, k));
    assert Occupies(s', i, pos % |s.ring|);
    forall j, k | Occupies(s', j, k) && j != i
      ensures s'.ring[k] == s'.threads[j].pc.pos
    {
      assert Holds(s, j, s.threads[j].pc.pos);
      SlotsDiffer(s0, s, i, j, pos, s.threads[j].pc.pos);
    }
    forall k | 0 <= k < |s'.ring| && Free(s', k)
      ensures s'.ring[k] == s.ring[k] && Free(s, k)
    {
      assert forall j :: Occupies(s, j, k) ==> Occupies(s', j, k);
    }
  }

  lemma CasKeepsRing(s0: State, s: State, i: nat, spurious: bool)
    requires Inv(s0, s) && Writers(s0) <= |s0.ring| && Enabled(s, Cas(i, spurious))
    requires Tickets(s0, Apply(Unbounded, s, Cas(i, spurious)))
    ensures RingContent(s0, Apply(Unbounded, s, Cas(i, spurious)))
  {
    var s' := Apply(Unbounded, s, Cas(i, spurious));
    var pos := s.threads[i].pc.pos;
    assert Holds(s, i, pos);
    if pos == s.cursor {
      assert s.dropped == [];
      var k0 := pos % |s.ring|;
      assert Occupies(s, i, k0);
      assert forall j, k :: j != i ==> (Occupies(s', j, k) <==> Occupies(s, j, k));
      assert forall k :: !Occupies(s', i, k);
      assert Sequential(s0.ring, s0.cursor, pos + 1)
          == AppendTicket(Sequential(s0.ring, s0.cursor, pos), pos);
      forall k | 0 <= k < |s'.ring| && Free(s', k)
        ensures s'.ring[k] == Sequential(s0.ring, s0.cursor, pos + 1)[k]
      {
        if k != k0 {
          assert forall j :: Occupies(s, j, k) ==> Occupies(s', j, k);
          assert Free(s, k);
        }
      }
    }
  }

  lemma StepKeepsInv(s0: State, s: State, e: Event)
    requires Inv(s0, s) && Enabled(s, e)
    ensures Inv(s0, Apply(Unbounded, s, e))
  {
    match e
    case Take(i) =>
      TakeKeepsTickets(s0, s, i);
      if Writers(s0) <= |s0.ring| { TakeKeepsRing(s0, s, i); }
    case Store(i) =>
      StoreKeepsTickets(s0, s, i);
      if Writers(s0) <= |s0.ring| { StoreKeepsRing(s0, s, i); }
    case Cas(i, spurious) =>
      CasKeepsTickets(s0, s, i, spurious);
      if Writers(s0) <= |s0.ring| { CasKeepsRing(s0, s, i, spurious); }
  }

  lemma {:induction false} RunKeepsInv(s0: State, s: State, evs: seq<Event>)
    requires Inv(s0, s) && Admissible(Unbounded, s, evs)
    ensures Inv(s0, Exec(Unbounded, s, evs))
    decreases |evs|
  {
    if evs == [] {
    } else {
      StepKeepsInv(s0, s, evs[0]);
      RunKeepsInv(s0, Apply(Unbounded, s, evs[0]), evs[1..]);
    }
  }

  lemma InitHasInv(s: State)
    requires Init(s)
    ensures Inv(s, s)
  {
    NobodyBusy(s);
    assert s.published == Range(s.cursor, s.cursor);
    assert forall i, t :: !Holds(s, i, t);
    assert forall i, k :: !Occupies(s, i, k);
  }

  lemma NobodyBusy(s: State)
    requires forall i :: 0 <= i < |s.threads| ==> s.threads[i].pc.Idle?
    ensures SumBy(s.threads, Busy) == 0
  {
    SumByBounds(s.threads, Busy, 0, 0);
  }
}
