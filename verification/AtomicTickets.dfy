/**
 The ticket and cursor pair without a payload, as the two atomics benchmarks use it.  Its runs are those
 of the ring protocol in which each store follows its ticket at once, over a ring of one slot that
 nobody reads.
 */
module AtomicTickets {
  import opened Sequences
  import opened BitMask
  import opened TicketRing
  import TicketRingTheorems
  import TicketRingProgress
  import opened TicketRingReuse
  import opened TicketRingInt32

  /** A thread either draws its ticket, or tries once to move the cursor. */
  datatype PairEvent = Draw(i: nat) | Advance(i: nat, spurious: bool)

  function Expand(e: PairEvent): seq<Event> {
    match e
    case Draw(i) => [Take(i), Store(i)]
    case Advance(i, spurious) => [Cas(i, spurious)]
  }

  function ExpandAll(evs: seq<PairEvent>): seq<Event> {
    if evs == [] then [] else Expand(evs[0]) + ExpandAll(evs[1..])
  }

  /** New threads on counters that both hold the true ticket number b. */
  function PairStart(b: int, lefts: seq<nat>): State {
    TicketRingTheorems.Restart(State(b, b, [b - 1], [], [], [], []), lefts)
  }

  class StdAtomicFixture {
    var ival: int
    var inext: int
    var icursor: int
    var threads: seq<Thread>

    ghost var stamps: seq<int>
    ghost var written: seq<int>
    ghost var published: seq<int>
    ghost var dropped: seq<int>

    ghost function View(): State
      reads this
    {
      State(icursor, inext, stamps, threads, written, published, dropped)
    }

    constructor ()
      ensures View() == State(0, 0, [-1], [], [], [], [])
    {
      ival, inext, icursor, threads := 0, 0, 0, [];
      stamps, written, published, dropped := [-1], [], [], [];
    }

    /** Starts new benchmark threads; the two ticket counters are not reset. */
    method SetUp(lefts: seq<nat>)
      modifies this
      ensures icursor == old(icursor) && inext == old(inext)
      ensures View() == TicketRingTheorems.Restart(
                          State(icursor, inext, [Wrap32(icursor - 1)], [], [], [], []), lefts)
    {
      ival := 0;
      threads := seq(|lefts|, i requires 0 <= i < |lefts| => Thread(Idle, lefts[i]));
      stamps, written, published, dropped := [Wrap32(icursor - 1)], [], [], [];
    }

    /**
     The CAS benchmark on counters that both hold the image of b, whatever earlier runs have brought
     them there: a complete schedule without spurious failures advances both by the total number of
     iterations, so the next benchmark can start without a reset.
     */
    method CasBenchmark(lefts: seq<nat>, evs: seq<PairEvent>, ghost b: nat, ghost total: int)
      requires icursor == inext == Wrap32(b) && total == SumBy(lefts, Count)
      requires |lefts| < TWO_TO_THE_32
      requires var s0 := PairStart(b, lefts);
        && Admissible(Unbounded, s0, ExpandAll(evs)) && Strong(ExpandAll(evs))
        && TicketRingProgress.Final(Exec(Unbounded, s0, ExpandAll(evs)))
      modifies this
      ensures icursor == inext == Wrap32(b + total)
      ensures dropped == []
    {
      SetUp(lefts);
      WrappedStart(lefts, b);
      CompletePairRun(lefts, ExpandAll(evs), b);
      PairStartFits(b, lefts);
      Run(evs);
    }

    method DrawTicket(i: nat)
      requires |stamps| > 0 && Enabled(View(), Take(i))
      modifies this`inext, this`threads, this`stamps, this`written
      ensures Admissible(Int32, old(View()), Expand(Draw(i)))
      ensures View() == Exec(Int32, old(View()), Expand(Draw(i)))
    {
      ghost var s := View();
      var idx := inext;
      inext := Wrap32(inext + 1);
      threads := threads[i := Thread(Stored(idx), threads[i].left - 1)];
      stamps, written := stamps[Slot(Int32, idx, |stamps|) := idx], written + [idx];
      ghost var s1 := Apply(Int32, s, Take(i));
      assert View() == Apply(Int32, s1, Store(i));
      assert [Take(i), Store(i)][1..] == [Store(i)] && [Store(i)][1..] == [];
      assert Admissible(Int32, s1, [Store(i)]);
      assert Exec(Int32, s1, [Store(i)]) == Apply(Int32, s1, Store(i));
    }

    method TryAdvance(i: nat, spurious: bool)
      requires |stamps| > 0 && Enabled(View(), Cas(i, spurious))
      modifies this`icursor, this`threads, this`published, this`dropped
      ensures Admissible(Int32, old(View()), Expand(Advance(i, spurious)))
      ensures View() == Exec(Int32, old(View()), Expand(Advance(i, spurious)))
    {
      ghost var s := View();
      var idx := threads[i].pc.pos;
      var r := CmpExchWeak(icursor, idx, Wrap32(idx + 1), spurious);
      if r.ok { icursor := r.value; }
      if r.ok || r.expected == idx {
        threads := threads[i := threads[i].(pc := Idle)];
        if r.ok { published := published + [idx]; } else { dropped := dropped + [idx]; }
      }
      assert View() == Apply(Int32, s, Cas(i, spurious));
      assert [Cas(i, spurious)][1..] == [];
    }

    /** Any interleaving of draws and attempts is a run of the ring protocol, so its theorems apply. */
    method Run(evs: seq<PairEvent>)
      requires |stamps| > 0 && Admissible(Int32, View(), ExpandAll(evs))
      modifies this
      ensures View() == Exec(Int32, old(View()), ExpandAll(evs))
    {
      for k := 0 to |evs|
        invariant |stamps| > 0 && Admissible(Int32, View(), ExpandAll(evs[k..]))
        invariant Exec(Int32, View(), ExpandAll(evs[k..])) == Exec(Int32, old(View()), ExpandAll(evs))
      {
        ghost var s := View();
        assert evs[k..][1..] == evs[k + 1..];
        var e := evs[k];
        assert ExpandAll(evs[k..]) == Expand(e) + ExpandAll(evs[k + 1..]);
        AdmissiblePrefix(s, Expand(e), ExpandAll(evs[k + 1..]));
        match e {
          case Draw(i) => DrawTicket(i);
          case Advance(i, spurious) => TryAdvance(i, spurious);
        }
        KeepsRing(s, Expand(e));
      }
    }
  }

  lemma {:induction false} AdmissiblePrefix(s: State, evs: seq<Event>, more: seq<Event>)
    requires Admissible(Int32, s, evs + more)
    ensures Admissible(Int32, s, evs) && Admissible(Int32, Exec(Int32, s, evs), more)
    ensures Exec(Int32, s, evs + more) == Exec(Int32, Exec(Int32, s, evs), more)
    decreases |evs|
  {
    if evs == [] {
      assert evs + more == more;
    } else {
      assert (evs + more)[0] == evs[0] && (evs + more)[1..] == evs[1..] + more;
      AdmissiblePrefix(Apply(Int32, s, evs[0]), evs[1..], more);
    }
  }

  lemma {:induction false} KeepsRing(s: State, evs: seq<Event>)
    requires Admissible(Int32, s, evs)
    ensures |Exec(Int32, s, evs).ring| == |s.ring|
    decreases |evs|
  {
    if evs == [] {
    } else {
      KeepsRing(Apply(Int32, s, evs[0]), evs[1..]);
    }
  }

  lemma PairStartFits(b: nat, lefts: seq<nat>)
    requires |lefts| < TWO_TO_THE_32
    ensures Init(PairStart(b, lefts)) && FitsInt32(PairStart(b, lefts), 0)
    ensures PairStart(b, lefts).cursor == b && SumBy(PairStart(b, lefts).threads, Left) == SumBy(lefts, Count)
  {
    SumByAgree(PairStart(b, lefts).threads, Left, lefts, Count);
  }

  lemma CompletePairRun(lefts: seq<nat>, evs: seq<Event>, b: nat)
    requires |lefts| < TWO_TO_THE_32
    requires var s0 := PairStart(b, lefts);
      Admissible(Unbounded, s0, evs) && Strong(evs) && TicketRingProgress.Final(Exec(Unbounded, s0, evs))
    ensures Admissible(Int32, WrapState(PairStart(b, lefts)), evs)
    ensures var m := Exec(Int32, WrapState(PairStart(b, lefts)), evs);
      var s0 := PairStart(b, lefts);
      m.cursor == m.next == Wrap32(s0.cursor + SumBy(s0.threads, Left)) && m.dropped == []
  {
    PairStartFits(b, lefts);
    CompleteInt32Run(PairStart(b, lefts), evs, 0);
  }

  /** What SetUp leaves when the counters hold the image of b. */
  lemma WrappedStart(lefts: seq<nat>, b: nat)
    ensures var c := Wrap32(b);
      TicketRingTheorems.Restart(State(c, c, [Wrap32(c - 1)], [], [], [], []), lefts)
        == WrapState(PairStart(b, lefts))
  {
    var c := Wrap32(b);
    var s0 := PairStart(b, lefts);
    var m0 := TicketRingTheorems.Restart(State(c, c, [Wrap32(c - 1)], [], [], [], []), lefts);
    WrappedDecrement(b);
    assert m0.threads == WrapState(s0).threads;
    assert m0.ring == WrapState(s0).ring;
  }
}
