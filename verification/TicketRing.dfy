/**
 The lock-free ordered publish into a power-of-two ring: each writer takes a ticket, stores into
 the slot of that ticket, and retries a weak compare-and-exchange until the cursor moves from its
 ticket to the next one.  Atomic operations are sequentially consistent steps; a run is any
 interleaving of the steps of any number of writers.
 */
module TicketRing {
  import opened Sequences
  import opened BitMask

  /** Arithmetic of the tickets: the 32-bit int of the program, or unbounded integers. */
  datatype Arith = Unbounded | Int32

  function Norm(a: Arith, x: int): int {
    match a
    case Unbounded => x
    case Int32 => Wrap32(x)
  }

  /** The ring index of a ticket: the program masks, the unbounded protocol takes the remainder. */
  function Slot(a: Arith, pos: int, cap: nat): (slot: nat)
    requires cap > 0
    ensures slot < cap
  {
    match a
    case Unbounded => pos % cap
    case Int32 => BitAnd(Bits32(pos), cap - 1)
  }

  datatype Pc = Idle | Ticketed(pos: int) | Stored(pos: int)

  /** One writer: where it is in its iteration, and how many iterations it has still to begin. */
  datatype Thread = Thread(pc: Pc, left: nat)

  /**
   The shared fields, the writers, and three histories: the tickets stored, published and dropped.
   ring[i] is the ticket that last wrote slot i.
   */
  datatype State = State(
    cursor: int, next: int, ring: seq<int>, threads: seq<Thread>,
    written: seq<int>, published: seq<int>, dropped: seq<int>)

  /** Steps of writer i; a Cas step may fail spuriously. */
  datatype Event = Take(i: nat) | Store(i: nat) | Cas(i: nat, spurious: bool)

  datatype CasResult = CasResult(ok: bool, value: int, expected: int)

  /** Weak compare-and-exchange: on failure the current value is copied into expected. */
  function CmpExchWeak(value: int, expected: int, desired: int, spurious: bool): CasResult {
    if value == expected && !spurious
    then CasResult(true, desired, expected)
    else CasResult(false, value, value)
  }

  predicate Enabled(s: State, e: Event) {
    && |s.ring| > 0
    && e.i < |s.threads|
    && match e
       case Take(i) => s.threads[i].pc.Idle? && s.threads[i].left > 0
       case Store(i) => s.threads[i].pc.Ticketed?
       case Cas(i, _) => s.threads[i].pc.Stored?
  }

  function Apply(a: Arith, s: State, e: Event): State
    requires Enabled(s, e)
  {
    var th := s.threads[e.i];
    match e
    case Take(i) =>
      s.(next := Norm(a, s.next + 1),
         threads := s.threads[i := Thread(Ticketed(s.next), th.left - 1)])
    case Store(i) =>
      var pos := th.pc.pos;
      s.(ring := s.ring[Slot(a, pos, |s.ring|) := pos],
         written := s.written + [pos],
         threads := s.threads[i := th.(pc := Stored(pos))])
    case Cas(i, spurious) =>
      var pos := th.pc.pos;
      var r := CmpExchWeak(s.cursor, pos, Norm(a, pos + 1), spurious);
      if !r.ok && r.expected != pos then
        s  // yield, reset the expected value and try again
      else
        var threads := s.threads[i := th.(pc := Idle)];
        if r.ok then s.(cursor := r.value, threads := threads, published := s.published + [pos])
        else s.(threads := threads, dropped := s.dropped + [pos])
  }

  predicate Admissible(a: Arith, s: State, evs: seq<Event>)
    decreases |evs|
  {
    evs == [] || (Enabled(s, evs[0]) && Admissible(a, Apply(a, s, evs[0]), evs[1..]))
  }

  function Exec(a: Arith, s: State, evs: seq<Event>): State
    requires Admissible(a, s, evs)
    decreases |evs|
  {
    if evs == [] then s else Exec(a, Apply(a, s, evs[0]), evs[1..])
  }

  /** No step of the schedule is a spurious failure. */
  predicate Strong(evs: seq<Event>) {
    forall k :: 0 <= k < |evs| && evs[k].Cas? ==> !evs[k].spurious
  }

  lemma {:induction false} ExecAppend(a: Arith, s: State, evs: seq<Event>, more: seq<Event>)
    requires Admissible(a, s, evs) && Admissible(a, Exec(a, s, evs), more)
    ensures Admissible(a, s, evs + more)
    ensures Exec(a, s, evs + more) == Exec(a, Exec(a, s, evs), more)
    decreases |evs|
  {
    if evs == [] {
      assert evs + more == more;
    } else {
      assert (evs + more)[1..] == evs[1..] + more;
      ExecAppend(a, Apply(a, s, evs[0]), evs[1..], more);
    }
  }

  // ----- The sequential program

  /** AsignInLock on an abstract ring: append the ticket c at its slot. */
  function AppendTicket(ring: seq<int>, c: int): (r: seq<int>)
    requires |ring| > 0
    ensures |r| == |ring|
  {
    ring[c % |ring| := c]
  }

  /** The ring after the sequential program has appended tickets base, ..., c-1 one after another. */
  function Sequential(ring: seq<int>, base: int, c: int): (r: seq<int>)
    requires |ring| > 0 && base <= c
    ensures |r| == |ring|
    decreases c - base
  {
    if c == base then ring else AppendTicket(Sequential(ring, base, c - 1), c - 1)
  }

  // ----- Invariants, for unbounded tickets

  /** Between two runs: nobody is inside an iteration and the counters agree. */
  predicate Quiescent(s: State) {
    && |s.ring| > 0
    && 0 <= s.cursor == s.next
    && (forall i :: 0 <= i < |s.threads| ==> s.threads[i].pc.Idle?)
  }

  /** A start of a run: quiescent, fresh histories, and a ring written by earlier tickets only. */
  predicate Init(s: State) {
    && Quiescent(s)
    && s.written == s.published == s.dropped == []
    && (forall k :: 0 <= k < |s.ring| ==> s.ring[k] < s.cursor)
  }

  predicate Holds(s: State, i: int, t: int) {
    0 <= i < |s.threads| && !s.threads[i].pc.Idle? && s.threads[i].pc.pos == t
  }

  ghost predicate Held(s: State, t: int) {
    exists i :: Holds(s, i, t)
  }

  /** Writer i has stored into the slot and not yet published. */
  predicate Occupies(s: State, i: int, slot: int) {
    && |s.ring| > 0 && 0 <= i < |s.threads|
    && s.threads[i].pc.Stored? && s.threads[i].pc.pos % |s.ring| == slot
  }

  ghost predicate Free(s: State, slot: int) {
    forall i :: !Occupies(s, i, slot)
  }

  function Busy(th: Thread): int { if th.pc.Idle? then 0 else 1 }

  function Left(th: Thread): int { th.left }

  /** Inside an iteration, or with one still to begin. */
  function Engaged(th: Thread): int { if th.pc.Idle? && th.left == 0 then 0 else 1 }

  /** The writers that have work; the others never step. */
  function Writers(s: State): int { SumBy(s.threads, Engaged) }

  ghost predicate Tickets(s0: State, s: State) {
    && |s.threads| == |s0.threads| && |s.ring| == |s0.ring| > 0
    && 0 <= s0.cursor <= s.cursor <= s.next
    && s.published == Range(s0.cursor, s.cursor)
    && (s.dropped == [] || s.dropped == [s.cursor])
    && (forall i, t :: Holds(s, i, t) ==> s.cursor + |s.dropped| <= t < s.next)
    && (forall i, j, t :: Holds(s, i, t) && Holds(s, j, t) ==> i == j)
    && (forall t :: s.cursor + |s.dropped| <= t < s.next ==> Held(s, t))
    && s.next == s.cursor + |s.dropped| + SumBy(s.threads, Busy)
    && s.next + SumBy(s.threads, Left) == s0.next + SumBy(s0.threads, Left)
    && Writers(s) <= Writers(s0)
    && (forall t :: s0.cursor <= t < s.cursor + |s.dropped| ==> t in s.written)
    && (forall t :: t in s.written ==> s0.cursor <= t < s.next)
    && (forall i :: 0 <= i < |s.threads| && s.threads[i].pc.Stored? ==> s.threads[i].pc.pos in s.written)
  }

  ghost predicate RingContent(s0: State, s: State)
    requires Tickets(s0, s)
  {
    && (forall i, k :: Occupies(s, i, k) ==> s.ring[k] == s.threads[i].pc.pos)
    && (forall k :: 0 <= k < |s.ring| && Free(s, k) ==>
          s.ring[k] == Sequential(s0.ring, s0.cursor, s.cursor + |s.dropped|)[k])
  }

  ghost predicate Inv(s0: State, s: State) {
    && Tickets(s0, s)
    && (Writers(s0) <= |s0.ring| ==> RingContent(s0, s))
  }
}
