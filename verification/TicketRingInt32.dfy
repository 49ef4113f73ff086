/** The program's 32-bit tickets behave as unbounded ones. */
module TicketRingInt32 {
  import opened Sequences
  import opened BitMask
  import opened TicketRing
  import opened TicketRingSafety
  import opened TicketRingTheorems
  import TicketRingProgress

  function WrapAll(ts: seq<int>): (w: seq<int>)
    ensures |w| == |ts|
  {
    seq(|ts|, k requires 0 <= k < |ts| => Wrap32(ts[k]))
  }

  function WrapThread(th: Thread): Thread {
    match th.pc
    case Idle => th
    case Ticketed(pos) => th.(pc := Ticketed(Wrap32(pos)))
    case Stored(pos) => th.(pc := Stored(Wrap32(pos)))
  }

  /** The 32-bit image of an unbounded state. */
  function WrapState(s: State): State {
    State(Wrap32(s.cursor), Wrap32(s.next), WrapAll(s.ring),
          seq(|s.threads|, i requires 0 <= i < |s.threads| => WrapThread(s.threads[i])),
          WrapAll(s.written), WrapAll(s.published), WrapAll(s.dropped))
  }

  /** Few enough writers that no two tickets in play wrap to the same int, and a maskable capacity. */
  ghost predicate FitsInt32(s: State, k: nat) {
    k <= 31 && |s.ring| == Pow2(k) && |s.threads| < TWO_TO_THE_32
  }

  lemma StepCommutesWithWrapping(s0: State, s: State, e: Event, k: nat)
    requires Inv(s0, s) && FitsInt32(s, k)
    ensures Enabled(WrapState(s), e) <==> Enabled(s, e)
    ensures Enabled(s, e) ==> Apply(Int32, WrapState(s), e) == WrapState(Apply(Unbounded, s, e))
  {
    if Enabled(s, e) {
      match e
      case Take(i) => TakeCommutes(s, i);
      case Store(i) => StoreCommutes(s, i, k);
      case Cas(i, spurious) => CasCommutes(s0, s, i, spurious);
    }
  }

  lemma TakeCommutes(s: State, i: nat)
    requires Enabled(s, Take(i))
    ensures Apply(Int32, WrapState(s), Take(i)) == WrapState(Apply(Unbounded, s, Take(i)))
  {
    WrappedIncrement(s.next);
    var m := Apply(Int32, WrapState(s), Take(i));
    var w := WrapState(Apply(Unbounded, s, Take(i)));
    assert m.threads == w.threads;
  }

  lemma StoreCommutes(s: State, i: nat, k: nat)
    requires Enabled(s, Store(i)) && k <= 31 && |s.ring| == Pow2(k)
    ensures Apply(Int32, WrapState(s), Store(i)) == WrapState(Apply(Unbounded, s, Store(i)))
  {
    var pos := s.threads[i].pc.pos;
    WrappedSlot(pos, k);
    var m := Apply(Int32, WrapState(s), Store(i));
    var w := WrapState(Apply(Unbounded, s, Store(i)));
    assert m.threads == w.threads;
    assert m.ring == w.ring;
    assert m.written == w.written;
  }

  lemma CasCommutes(s0: State, s: State, i: nat, spurious: bool)
    requires Inv(s0, s) && |s.threads| < TWO_TO_THE_32 && Enabled(s, Cas(i, spurious))
    ensures Apply(Int32, WrapState(s), Cas(i, spurious)) == WrapState(Apply(Unbounded, s, Cas(i, spurious)))
  {
    var pos := s.threads[i].pc.pos;
    assert Holds(s, i, pos);
    BusyAtMostAll(s);
    WrappedEquality(s.cursor, pos);
    WrappedIncrement(pos);
    var m := Apply(Int32, WrapState(s), Cas(i, spurious));
    var w := WrapState(Apply(Unbounded, s, Cas(i, spurious)));
    assert m.threads == w.threads;
    assert m.published == w.published;
    assert m.dropped == w.dropped;
  }

  /**
   Every schedule runs in 32-bit arithmetic exactly when it runs in unbounded arithmetic, and then it
   ends in the wrapped image of the same state: overflow of the ticket counters is harmless.
   */
  lemma {:induction false} Int32RefinesUnbounded(s0: State, s: State, evs: seq<Event>, k: nat)
    requires Inv(s0, s) && FitsInt32(s, k)
    ensures Admissible(Int32, WrapState(s), evs) <==> Admissible(Unbounded, s, evs)
    ensures Admissible(Unbounded, s, evs) ==>
      Exec(Int32, WrapState(s), evs) == WrapState(Exec(Unbounded, s, evs))
    decreases |evs|
  {
    if evs == [] {
    } else {
      StepCommutesWithWrapping(s0, s, evs[0], k);
      if Enabled(s, evs[0]) {
        StepKeepsInv(s0, s, evs[0]);
        Int32RefinesUnbounded(s0, Apply(Unbounded, s, evs[0]), evs[1..], k);
      }
    }
  }

  /**
   A complete run without spurious failures, in 32-bit arithmetic: both counters hold the image of the base
   plus the number of iterations, and the tickets published are the images of all of them in order.
   */
  lemma CompleteInt32Run(s0: State, evs: seq<Event>, k: nat)
    requires Init(s0) && FitsInt32(s0, k)
    requires Admissible(Unbounded, s0, evs) && Strong(evs)
    requires TicketRingProgress.Final(Exec(Unbounded, s0, evs))
    ensures Admissible(Int32, WrapState(s0), evs)
    ensures var m := Exec(Int32, WrapState(s0), evs);
      var c := s0.cursor + SumBy(s0.threads, Left);
      && s0.cursor <= c && m.cursor == m.next == Wrap32(c)
      && m.published == WrapAll(Range(s0.cursor, c)) && m.dropped == []
  {
    InitHasInv(s0);
    Int32RefinesUnbounded(s0, s0, evs, k);
    TicketRingProgress.CompleteRunPublishesAll(s0, evs);
    StrongNeverDrops(s0, evs);
  }
}
