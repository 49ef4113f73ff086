/** The fixture of the thread-transfer write benchmarks, with its fields updated in place. */
module ThreadTransWrite {
  import opened Sequences
  import opened BitMask
  import opened TicketRing
  import TicketRingSafety
  import TicketRingTheorems
  import TicketRingProgress
  import opened TicketRingReuse
  import opened TicketRingInt32

  const RING_CAPACITY: nat := 4096

  lemma CapacityIsPowerOfTwo()
    ensures RING_CAPACITY == Pow2(12)
  {
    assert Pow2(4) == 16;
    Pow2Byte(4);
  }

  /** What SetUp establishes: counters at zero, no slot written since, and new threads. */
  function FreshStart(lefts: seq<nat>): State {
    TicketRingTheorems.Restart(State(0, 0, seq(RING_CAPACITY, _ => -1), [], [], [], []), lefts)
  }

  type Pointers = seq<Option<nat>>

  /** The pointers in the ring after tickets ts have been stored one after another. */
  function AfterStores(ring: Pointers, ts: seq<int>): (after: Pointers)
    requires |ring| == RING_CAPACITY
    ensures |after| == RING_CAPACITY
  {
    if ts == [] then ring
    else
      var last := |ts| - 1;
      var idx := Slot(Int32, ts[last], RING_CAPACITY);
      AfterStores(ring, ts[..last])[idx := Some(idx)]
  }

  /** A slot holds its pointer if some ticket was stored there, and its old content if none was. */
  lemma {:induction false} AfterStoresAt(ring: Pointers, ts: seq<int>, k: nat)
    requires |ring| == RING_CAPACITY && k < RING_CAPACITY
    ensures AfterStores(ring, ts)[k] ==
      if exists j :: 0 <= j < |ts| && Slot(Int32, ts[j], RING_CAPACITY) == k then Some(k) else ring[k]
  {
    if ts == [] {
    } else {
      var last := |ts| - 1;
      AfterStoresAt(ring, ts[..last], k);
      if j :| 0 <= j < last && Slot(Int32, ts[j], RING_CAPACITY) == k {
        assert ts[..last][j] == ts[j];
      }
    }
  }

  lemma AfterOneMore(ring: Pointers, ts: seq<int>, pos: int)
    requires |ring| == RING_CAPACITY
    ensures var idx := Slot(Int32, pos, RING_CAPACITY);
      AfterStores(ring, ts + [pos]) == AfterStores(ring, ts)[idx := Some(idx)]
  {
    assert (ts + [pos])[..|ts|] == ts;
  }

  lemma SlotOfImage(t: int)
    ensures Slot(Int32, Wrap32(t), RING_CAPACITY) == t % RING_CAPACITY
  {
    CapacityIsPowerOfTwo();
    WrappedSlot(t, 12);
  }

  lemma StoredTicketPoints(ring: Pointers, written: seq<int>, j: nat)
    requires |ring| == RING_CAPACITY && j < |written|
    ensures var k := written[j] % RING_CAPACITY; AfterStores(ring, WrapAll(written))[k] == Some(k)
  {
    SlotOfImage(written[j]);
    assert WrapAll(written)[j] == Wrap32(written[j]);
    AfterStoresAt(ring, WrapAll(written), written[j] % RING_CAPACITY);
  }

  lemma OtherSlotsKeep(ring: Pointers, written: seq<int>, k: nat)
    requires |ring| == RING_CAPACITY && k < RING_CAPACITY
    requires forall j :: 0 <= j < |written| ==> written[j] % RING_CAPACITY != k
    ensures AfterStores(ring, WrapAll(written))[k] == ring[k]
  {
    forall j | 0 <= j < |written| ensures Slot(Int32, WrapAll(written)[j], RING_CAPACITY) != k {
      SlotOfImage(written[j]);
    }
    AfterStoresAt(ring, WrapAll(written), k);
  }

  lemma DrawnTicketPoints(ring: Pointers, written: seq<int>, t: int)
    requires |ring| == RING_CAPACITY && t in written
    ensures AfterStores(ring, WrapAll(written))[t % RING_CAPACITY] == Some(t % RING_CAPACITY)
  {
    var j :| 0 <= j < |written| && written[j] == t;
    StoredTicketPoints(ring, written, j);
  }

  lemma HighSlotKeeps(ring: Pointers, written: seq<int>, total: nat, k: nat)
    requires |ring| == RING_CAPACITY && total <= k < RING_CAPACITY
    requires forall t :: t in written ==> 0 <= t < total
    ensures AfterStores(ring, WrapAll(written))[k] == ring[k]
  {
    forall j | 0 <= j < |written| ensures written[j] % RING_CAPACITY != k {
      assert written[j] in written;
    }
    OtherSlotsKeep(ring, written, k);
  }

  /** Storing the images of tickets from 0 to total, all of them and no others, fills exactly their slots. */
  lemma AfterAllStores(ring: Pointers, written: seq<int>, total: nat)
    requires |ring| == RING_CAPACITY
    requires forall t :: 0 <= t < total ==> t in written
    requires forall t :: t in written ==> 0 <= t < total
    ensures var after := AfterStores(ring, WrapAll(written));
      && (forall t :: 0 <= t < total ==> after[t % RING_CAPACITY] == Some(t % RING_CAPACITY))
      && (forall k :: total <= k < RING_CAPACITY ==> after[k] == ring[k])
  {
    var after := AfterStores(ring, WrapAll(written));
    forall t | 0 <= t < total ensures after[t % RING_CAPACITY] == Some(t % RING_CAPACITY) {
      DrawnTicketPoints(ring, written, t);
    }
    forall k | total <= k < RING_CAPACITY ensures after[k] == ring[k] {
      HighSlotKeeps(ring, written, total, k);
    }
  }

  class ThreadTransWriteFixture {
    const datas: array<int>
    /** ring[k] is null or the pointer &datas[j], written Some(j). */
    const ring: array<Option<nat>>
    var cursor: int
    var next: int
    /** The local variables of the benchmark threads. */
    var threads: seq<Thread>

    /** The ticket that last wrote each slot since SetUp, -1 for none. */
    ghost var stamps: seq<int>
    ghost var written: seq<int>
    ghost var published: seq<int>
    ghost var dropped: seq<int>

    /** Every slot that is not null points at its own entry of datas. */
    ghost predicate Valid()
      reads this, datas, ring
    {
      && datas.Length == ring.Length == |stamps| == RING_CAPACITY
      && (forall k :: 0 <= k < ring.Length ==> ring[k] == None || ring[k] == Some(k))
    }

    ghost function View(): State
      reads this
    {
      State(cursor, next, stamps, threads, written, published, dropped)
    }

    constructor ()
      ensures Valid() && fresh(datas) && fresh(ring)
      ensures forall k :: 0 <= k < |stamps| ==> stamps[k] == -1 && ring[k] == None
    {
      datas := new int[RING_CAPACITY];
      ring := new Option<nat>[RING_CAPACITY](_ => None);
      cursor, next, threads := 0, 0, [];
      stamps := seq(RING_CAPACITY, _ => -1);
      written, published, dropped := [], [], [];
    }

    /** Fills the payload table and resets the counters; the ring keeps its pointers. */
    method SetUp(lefts: seq<nat>)
      requires Valid()
      modifies this, datas
      ensures Valid() && View() == FreshStart(lefts)
      ensures forall k :: 0 <= k < datas.Length ==> datas[k] == k
    {
      for i := 0 to RING_CAPACITY
        invariant forall k :: 0 <= k < i ==> datas[k] == k
        modifies datas
      {
        datas[i] := i;
      }
      cursor, next := 0, 0;
      threads := seq(|lefts|, i requires 0 <= i < |lefts| => Thread(Idle, lefts[i]));
      stamps := seq(RING_CAPACITY, _ => -1);
      written, published, dropped := [], [], [];
    }

    /**
     One append, called by whoever holds the lock, or by the only thread.  The cursor holds the 32-bit
     image of the true ticket c.
     */
    method AsignInLock(ghost c: int)
      requires Valid() && cursor == Wrap32(c)
      modifies this`cursor, this`stamps, ring
      ensures Valid() && cursor == Wrap32(c + 1)
      ensures stamps == AppendTicket(old(stamps), c)
      ensures ring[..] == old(ring[..])[c % RING_CAPACITY := Some(c % RING_CAPACITY)]
    {
      CapacityIsPowerOfTwo();
      WrappedSlot(c, 12);
      WrappedIncrement(c);
      var idx := Slot(Int32, cursor, RING_CAPACITY);
      ring[idx] := Some(idx);
      stamps := stamps[idx := c];
      cursor := Wrap32(cursor + 1);
    }

    /** The single-threaded benchmark: n appends leave the sequential ring of the n tickets. */
    method Single(n: nat, ghost c: int)
      requires Valid() && cursor == Wrap32(c)
      modifies this`cursor, this`stamps, ring
      ensures Valid() && cursor == Wrap32(c + n)
      ensures stamps == Sequential(old(stamps), c, c + n)
      ensures forall t :: c <= t < c + n ==> ring[t % RING_CAPACITY] == Some(t % RING_CAPACITY)
    {
      for i := 0 to n
        invariant Valid() && cursor == Wrap32(c + i)
        invariant stamps == Sequential(old(stamps), c, c + i)
        invariant forall t :: c <= t < c + i ==> ring[t % RING_CAPACITY] == Some(t % RING_CAPACITY)
      {
        AsignInLock(c + i);
      }
    }

    /** pos = fetch_add(&next, 1). */
    method FetchAdd(i: nat)
      requires Valid() && Enabled(View(), Take(i))
      modifies this`next, this`threads
      ensures Valid() && View() == Apply(Int32, old(View()), Take(i))
    {
      var pos := next;
      next := Wrap32(next + 1);
      threads := threads[i := Thread(Ticketed(pos), threads[i].left - 1)];
    }

    /** ring[idx].data = &datas[idx]. */
    method StoreSlot(i: nat)
      requires Valid() && Enabled(View(), Store(i))
      modifies this`threads, this`stamps, this`written, ring
      ensures Valid() && View() == Apply(Int32, old(View()), Store(i))
      ensures var idx := Slot(Int32, old(threads)[i].pc.pos, RING_CAPACITY);
        ring[..] == old(ring[..])[idx := Some(idx)]
    {
      var pos := threads[i].pc.pos;
      var idx := Slot(Int32, pos, RING_CAPACITY);
      ring[idx] := Some(idx);
      stamps, written := stamps[idx := pos], written + [pos];
      threads := threads[i := threads[i].(pc := Stored(pos))];
    }

    /** One evaluation of the loop condition, and the loop body when it holds. */
    method TryPublish(i: nat, spurious: bool)
      requires Valid() && Enabled(View(), Cas(i, spurious))
      modifies this`cursor, this`threads, this`published, this`dropped
      ensures Valid() && View() == Apply(Int32, old(View()), Cas(i, spurious))
    {
      var pos := threads[i].pc.pos;
      var curPos := pos;
      var r := CmpExchWeak(cursor, curPos, Wrap32(pos + 1), spurious);
      if r.ok { cursor := r.value; } else { curPos := r.expected; }
      if !r.ok && curPos != pos {
        curPos := pos;
      } else {
        threads := threads[i := threads[i].(pc := Idle)];
        if r.ok { published := published + [pos]; } else { dropped := dropped + [pos]; }
      }
    }

    /** Any interleaving of the CAS benchmark's threads, step by step. */
    method RunCas(evs: seq<Event>)
      requires Valid() && Admissible(Int32, View(), evs)
      modifies this, ring
      ensures Valid() && View() == Exec(Int32, old(View()), evs)
      ensures old(written) <= written
      ensures ring[..] == AfterStores(old(ring[..]), written[|old(written)|..])
    {
      for k := 0 to |evs|
        invariant Valid() && Admissible(Int32, View(), evs[k..])
        invariant Exec(Int32, View(), evs[k..]) == Exec(Int32, old(View()), evs)
        invariant old(written) <= written
        invariant ring[..] == AfterStores(old(ring[..]), written[|old(written)|..])
      {
        assert evs[k..][1..] == evs[k + 1..];
        match evs[k] {
          case Take(i) => FetchAdd(i);
          case Store(i) =>
            ghost var before, pos := written[|old(written)|..], threads[i].pc.pos;
            StoreSlot(i);
            assert written[|old(written)|..] == before + [pos];
            AfterOneMore(old(ring[..]), before, pos);
          case Cas(i, spurious) => TryPublish(i, spurious);
        }
      }
    }

    /**
     The CAS benchmark from SetUp, however often the fixture has been used before, with at most 4096
     threads: a schedule without spurious failures that ends all iterations leaves the counters and the
     stamps of the sequential program, and a pointer in the slot of every ticket and no other new one.
     */
    method CasBenchmark(lefts: seq<nat>, evs: seq<Event>, ghost total: int)
      requires Valid() && |lefts| <= RING_CAPACITY && total == SumBy(lefts, Count)
      requires var s0 := FreshStart(lefts);
        && Admissible(Unbounded, s0, evs) && Strong(evs)
        && TicketRingProgress.Final(Exec(Unbounded, s0, evs))
      modifies this, datas, ring
      ensures Valid()
      ensures total >= 0 && cursor == next == Wrap32(total)
      ensures stamps == WrapAll(Sequential(seq(RING_CAPACITY, _ => -1), 0, total))
      ensures published == WrapAll(Range(0, total)) && dropped == []
      ensures forall t :: 0 <= t < total ==> ring[t % RING_CAPACITY] == Some(t % RING_CAPACITY)
      ensures forall k :: total <= k < RING_CAPACITY ==> ring[k] == old(ring[k])
    {
      SetUp(lefts);
      ghost var s0 := View();
      ghost var before := ring[..];
      CompleteRun(s0, evs, lefts, total);
      RunCas(evs);
      ghost var s := Exec(Unbounded, s0, evs);
      assert written == written[0..] == WrapAll(s.written);
      AfterAllStores(before, s.written, total);
    }
  }

  /** The start is its own image in 32-bit arithmetic, and its writers fit the ring. */
  lemma FreshStartFits(lefts: seq<nat>)
    requires |lefts| <= RING_CAPACITY
    ensures var s0 := FreshStart(lefts);
      Init(s0) && WrapState(s0) == s0 && FitsInt32(s0, 12) && Writers(s0) <= |s0.ring|
      && SumBy(s0.threads, Left) == SumBy(lefts, Count)
  {
    var s0 := FreshStart(lefts);
    CapacityIsPowerOfTwo();
    TicketRingSafety.BusyAtMostAll(s0);
    assert WrapState(s0).ring == s0.ring;
    assert WrapState(s0).threads == s0.threads;
    SumByAgree(s0.threads, Left, lefts, Count);
  }

  /** What is known of a complete strong run from SetUp, in the 32-bit image. */
  lemma CompleteRun(s0: State, evs: seq<Event>, lefts: seq<nat>, total: int)
    requires s0 == FreshStart(lefts) && |lefts| <= RING_CAPACITY && total == SumBy(lefts, Count)
    requires Admissible(Unbounded, s0, evs) && Strong(evs) && TicketRingProgress.Final(Exec(Unbounded, s0, evs))
    ensures var s := Exec(Unbounded, s0, evs);
      && total >= 0 && s.cursor == s.next == total
      && s.ring == Sequential(s0.ring, 0, total) && s.published == Range(0, total) && s.dropped == []
      && (forall t :: 0 <= t < total ==> t in s.written) && (forall t :: t in s.written ==> 0 <= t < total)
      && Admissible(Int32, s0, evs) && Exec(Int32, s0, evs) == WrapState(s)
  {
    FreshStartFits(lefts);
    TicketRingSafety.InitHasInv(s0);
    Int32RefinesUnbounded(s0, s0, evs, 12);
    TicketRingProgress.CompleteRunPublishesAll(s0, evs);
    TicketRingTheorems.StrongNeverDrops(s0, evs);
    TicketRingTheorems.QuiescentIsSequential(s0, evs);
    TicketRingTheorems.WrittenAreDrawn(s0, evs);
  }
}
