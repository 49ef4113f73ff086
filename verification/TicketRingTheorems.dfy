/** The guarantees of the ticketed publish over whole runs, for any number of writers. */
module TicketRingTheorems {
  import opened Sequences
  import opened Arithmetic
  import opened TicketRing
  import opened TicketRingSafety

  lemma ReachableInv(s0: State, evs: seq<Event>)
    requires Init(s0) && Admissible(Unbounded, s0, evs)
    ensures Inv(s0, Exec(Unbounded, s0, evs))
  {
    InitHasInv(s0);
    RunKeepsInv(s0, s0, evs);
  }

  /**
   With a weak compare-and-exchange, in every run: the published tickets are exactly those below the
   cursor, in order; each was stored before; and at most one ticket is dropped, the one at the cursor.
   */
  lemma PublishedPrefix(s0: State, evs: seq<Event>)
    requires Init(s0) && Admissible(Unbounded, s0, evs)
    ensures var s := Exec(Unbounded, s0, evs);
      && s0.cursor <= s.cursor <= s.next
      && s.published == Range(s0.cursor, s.cursor)
      && (forall t :: t in s.published ==> t in s.written)
      && (s.dropped == [] || s.dropped == [s.cursor])
  {
    ReachableInv(s0, evs);
  }

  /** Only drawn tickets are ever stored, and each published or dropped one has been. */
  lemma WrittenAreDrawn(s0: State, evs: seq<Event>)
    requires Init(s0) && Admissible(Unbounded, s0, evs)
    ensures var s := Exec(Unbounded, s0, evs);
      && (forall t :: t in s.written ==> s0.cursor <= t < s.next)
      && (forall t :: s0.cursor <= t < s.cursor + |s.dropped| ==> t in s.written)
  {
    ReachableInv(s0, evs);
  }

  /** Every ticket from the cursor on that is not dropped is held by one writer, and by one only. */
  lemma TicketsAndWriters(s0: State, evs: seq<Event>)
    requires Init(s0) && Admissible(Unbounded, s0, evs)
    ensures var s := Exec(Unbounded, s0, evs);
      && (forall t :: s.cursor + |s.dropped| <= t < s.next <==> Held(s, t))
      && (forall i, j, t :: Holds(s, i, t) && Holds(s, j, t) ==> i == j)
      && s.next - s.cursor == |s.dropped| + SumBy(s.threads, Busy)
      && s.next - s.cursor <= |s.dropped| + Writers(s0) <= |s.dropped| + |s0.threads|
  {
    ReachableInv(s0, evs);
    BusyAtMostAll(Exec(Unbounded, s0, evs));
    BusyAtMostAll(s0);
  }

  /** With at most as many writers with work as slots, two writers never address the same slot. */
  lemma SlotsExclusive(s0: State, evs: seq<Event>, i: int, j: int, t: int, u: int)
    requires Init(s0) && Admissible(Unbounded, s0, evs) && Writers(s0) <= |s0.ring|
    requires Holds(Exec(Unbounded, s0, evs), i, t) && Holds(Exec(Unbounded, s0, evs), j, u) && i != j
    ensures Slot(Unbounded, t, |s0.ring|) != Slot(Unbounded, u, |s0.ring|)
  {
    ReachableInv(s0, evs);
    SlotsDiffer(s0, Exec(Unbounded, s0, evs), i, j, t, u);
  }

  // ----- What the sequential program leaves in a slot

  /** t is the last ticket of slot k below c. */
  predicate LastOf(t: int, k: int, cap: int, c: int) {
    cap > 0 && t < c <= t + cap && t % cap == k
  }

  /** The sequential program leaves in each slot the last ticket appended there, if there is one. */
  lemma {:induction false} SequentialHoldsLast(ring: seq<int>, base: int, c: int, t: int)
    requires |ring| > 0 && base <= t && LastOf(t, t % |ring|, |ring|, c)
    ensures Sequential(ring, base, c)[t % |ring|] == t
    decreases c - base
  {
    if c - 1 == t {
    } else {
      CloseTicketsDiffer(t, c - 1, |ring|);
      SequentialHoldsLast(ring, base, c - 1, t);
    }
  }

  /** A slot that no appended ticket falls into keeps its content. */
  lemma {:induction false} SequentialKeepsOthers(ring: seq<int>, base: int, c: int, k: nat)
    requires k < |ring| && base <= c
    requires forall t :: base <= t < c ==> t % |ring| != k
    ensures Sequential(ring, base, c)[k] == ring[k]
    decreases c - base
  {
    if c == base {
    } else {
      SequentialKeepsOthers(ring, base, c - 1, k);
    }
  }

  lemma {:induction false} SequentialBelow(ring: seq<int>, base: int, c: int)
    requires |ring| > 0 && base <= c && forall k :: 0 <= k < |ring| ==> ring[k] < base
    ensures forall k :: 0 <= k < |ring| ==> Sequential(ring, base, c)[k] < c
    decreases c - base
  {
    if c == base {
    } else {
      SequentialBelow(ring, base, c - 1);
    }
  }

  // ----- Content of the concurrent ring

  /**
   Each slot holds what the sequential program would have left there, or the ticket of the one writer
   that has stored but not published, and that ticket is the very next one for the slot.
   */
  lemma SlotHoldsLatest(s0: State, evs: seq<Event>, k: nat)
    requires Init(s0) && Admissible(Unbounded, s0, evs) && Writers(s0) <= |s0.ring|
    requires k < |s0.ring|
    ensures var s := Exec(Unbounded, s0, evs);
      var appended := s.cursor + |s.dropped|;
      && |s.ring| == |s0.ring| && s0.cursor <= appended
      && ((Free(s, k) && s.ring[k] == Sequential(s0.ring, s0.cursor, appended)[k])
          || exists i :: Occupies(s, i, k) && s.ring[k] == s.threads[i].pc.pos
               && LastOf(s.ring[k] - |s.ring|, k, |s.ring|, appended))
  {
    ReachableInv(s0, evs);
    var s := Exec(Unbounded, s0, evs);
    if !Free(s, k) {
      var i :| Occupies(s, i, k);
      var pos := s.threads[i].pc.pos;
      assert Holds(s, i, pos);
      BusyAtMostAll(s);
      ShiftedSlot(pos, |s.ring|);
      assert LastOf(s.ring[k] - |s.ring|, k, |s.ring|, s.cursor + |s.dropped|);
    }
  }

  lemma ShiftedSlot(pos: int, cap: int)
    requires cap > 0
    ensures (pos - cap) % cap == pos % cap
  {
    var q, r := pos / cap, pos % cap;
    assert pos - cap == cap * (q - 1) + r;
    DivModUnique(pos - cap, cap, q - 1, r);
  }

  /** The most recent published tickets, all those that no taken ticket can yet overwrite, are intact. */
  lemma WindowIntact(s0: State, evs: seq<Event>, t: int)
    requires Init(s0) && Admissible(Unbounded, s0, evs) && Writers(s0) <= |s0.ring|
    requires var s := Exec(Unbounded, s0, evs);
      t in s.published && s.next - |s.ring| <= t
    ensures var s := Exec(Unbounded, s0, evs);
      |s.ring| == |s0.ring| && s.ring[t % |s.ring|] == t
  {
    ReachableInv(s0, evs);
    var s := Exec(Unbounded, s0, evs);
    var k := t % |s.ring|;
    forall i | Occupies(s, i, k) ensures false {
      assert Holds(s, i, s.threads[i].pc.pos);
      CloseTicketsDiffer(t, s.threads[i].pc.pos, |s.ring|);
    }
    assert Free(s, k);
    BusyAtMostAll(s);
    SequentialHoldsLast(s0.ring, s0.cursor, s.cursor + |s.dropped|, t);
  }

  /** A slot into which nobody has stored unpublished holds a ticket below the next to be appended. */
  lemma FreeSlotBelow(s0: State, s: State, k: nat)
    requires Init(s0) && Inv(s0, s) && Writers(s0) <= |s0.ring| && k < |s.ring| && Free(s, k)
    ensures s.ring[k] < s.cursor + |s.dropped|
  {
    SequentialBelow(s0.ring, s0.cursor, s.cursor + |s.dropped|);
  }

  /** No other writer has stored, unpublished, into the slot of a ticket that is about to be stored. */
  lemma OwnSlotIsFree(s0: State, s: State, i: nat)
    requires Tickets(s0, s) && Writers(s0) <= |s0.ring| && i < |s.threads| && s.threads[i].pc.Ticketed?
    ensures Free(s, s.threads[i].pc.pos % |s.ring|)
  {
    var pos := s.threads[i].pc.pos;
    assert Holds(s, i, pos);
    forall j | Occupies(s, j, pos % |s.ring|) ensures false {
      assert Holds(s, j, s.threads[j].pc.pos);
      SlotsDiffer(s0, s, i, j, pos, s.threads[j].pc.pos);
    }
  }

  /** A slot changes only to a later ticket, as long as there are no more writers with work than slots. */
  lemma StampsIncrease(s0: State, evs: seq<Event>, e: Event, k: nat)
    requires Init(s0) && Admissible(Unbounded, s0, evs) && Writers(s0) <= |s0.ring|
    requires Enabled(Exec(Unbounded, s0, evs), e) && k < |s0.ring|
    ensures var s := Exec(Unbounded, s0, evs);
      var s' := Apply(Unbounded, s, e);
      |s'.ring| == |s.ring| == |s0.ring| && s'.ring[k] >= s.ring[k]
  {
    ReachableInv(s0, evs);
    var s := Exec(Unbounded, s0, evs);
    if e.Store? && s.threads[e.i].pc.pos % |s.ring| == k {
      assert Holds(s, e.i, s.threads[e.i].pc.pos);
      OwnSlotIsFree(s0, s, e.i);
      FreeSlotBelow(s0, s, k);
    }
  }

  // ----- Refinement of the sequential program

  /** The sequential program's state: its cursor and its ring. */
  datatype Appended = Appended(cursor: int, ring: seq<int>)

  function AsignInLock(a: Appended): Appended
    requires |a.ring| > 0
  {
    Appended(a.cursor + 1, AppendTicket(a.ring, a.cursor))
  }

  /** The sequential state that a concurrent state stands for. */
  function Abstract(s0: State, s: State): Appended
    requires |s0.ring| > 0 && s0.cursor <= s.cursor
  {
    Appended(s.cursor, Sequential(s0.ring, s0.cursor, s.cursor))
  }

  /**
   Each step of the concurrent program is a stutter or one AsignInLock, and it is the latter exactly
   when the writer holding the ticket at the cursor succeeds.
   */
  lemma StepRefinesAppend(s0: State, evs: seq<Event>, e: Event)
    requires Init(s0) && Admissible(Unbounded, s0, evs)
    requires Enabled(Exec(Unbounded, s0, evs), e)
    ensures var s := Exec(Unbounded, s0, evs);
      var s' := Apply(Unbounded, s, e);
      && s0.cursor <= s.cursor <= s'.cursor
      && Abstract(s0, s') ==
           if e.Cas? && !e.spurious && Holds(s, e.i, s.cursor)
           then AsignInLock(Abstract(s0, s)) else Abstract(s0, s)
  {
    ReachableInv(s0, evs);
  }

  /** Without a spurious failure nothing is dropped. */
  lemma {:induction false} StrongNeverDrops(s: State, evs: seq<Event>)
    requires Admissible(Unbounded, s, evs) && Strong(evs)
    ensures Exec(Unbounded, s, evs).dropped == s.dropped
    decreases |evs|
  {
    if evs == [] {
    } else {
      assert evs[0].Cas? ==> !evs[0].spurious;
      var rest := evs[1..];
      assert forall k :: 0 <= k < |rest| ==> rest[k] == evs[k + 1];
      StrongNeverDrops(Apply(Unbounded, s, evs[0]), rest);
    }
  }

  /**
   Whenever no writer is inside an iteration, a run with a strong compare-and-exchange has left
   exactly the counters and the ring of the sequential program.
   */
  lemma QuiescentIsSequential(s0: State, evs: seq<Event>)
    requires Init(s0) && Admissible(Unbounded, s0, evs) && Strong(evs)
    requires Writers(s0) <= |s0.ring|
    requires var s := Exec(Unbounded, s0, evs); forall i :: 0 <= i < |s.threads| ==> s.threads[i].pc.Idle?
    ensures var s := Exec(Unbounded, s0, evs);
      && s0.cursor <= s.cursor == s.next
      && s.ring == Sequential(s0.ring, s0.cursor, s.cursor)
  {
    ReachableInv(s0, evs);
    StrongNeverDrops(s0, evs);
    var s := Exec(Unbounded, s0, evs);
    NobodyBusy(s);
    forall k | 0 <= k < |s.ring| ensures s.ring[k] == Sequential(s0.ring, s0.cursor, s.cursor)[k] {
      assert Free(s, k);
    }
  }

  /** The state at the start of another run on the same fixture, with new iteration counts. */
  function Restart(s: State, lefts: seq<nat>): State {
    State(s.cursor, s.next, s.ring, seq(|lefts|, i requires 0 <= i < |lefts| => Thread(Idle, lefts[i])), [], [], [])
  }

  /**
   A run that ends quiescent leaves a legal start: the pair of counters can be reused by any number of
   successive runs without resetting it, and the ring composes.
   */
  lemma RestartNeedsNoReset(s0: State, evs: seq<Event>, lefts: seq<nat>)
    requires Init(s0) && Admissible(Unbounded, s0, evs) && Strong(evs)
    requires Writers(s0) <= |s0.ring|
    requires var s := Exec(Unbounded, s0, evs); forall i :: 0 <= i < |s.threads| ==> s.threads[i].pc.Idle?
    ensures Init(Restart(Exec(Unbounded, s0, evs), lefts))
  {
    QuiescentIsSequential(s0, evs);
    SequentialBelow(s0.ring, s0.cursor, Exec(Unbounded, s0, evs).cursor);
  }

  lemma {:induction false} SequentialComposes(ring: seq<int>, base: int, mid: int, c: int)
    requires |ring| > 0 && base <= mid <= c
    ensures Sequential(Sequential(ring, base, mid), mid, c) == Sequential(ring, base, c)
    decreases c - mid
  {
    if c == mid {
    } else {
      SequentialComposes(ring, base, mid, c - 1);
    }
  }
}
