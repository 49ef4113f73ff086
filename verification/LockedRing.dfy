/**
 The lock-based publish: SpinLock, Mutex and Sync run AsignInLock between lock and unlock.  The lock is
 known by its contract only: it can be taken when it is free, and nobody else has it meanwhile.
 */
module LockedRing {
  import opened Sequences
  import TR = TicketRing
  import TicketRingTheorems
  import TicketRingProgress

  /** A writer inside AsignInLock, statement by statement. */
  datatype Pc = Outside | Acquired | Indexed(idx: nat) | Wrote | Loaded(value: int) | Advanced

  datatype Writer = Writer(pc: Pc, left: nat)

  datatype State = State(lock: Option<nat>, cursor: int, ring: seq<int>, writers: seq<Writer>)

  /** The next step of writer i. */
  predicate Enabled(s: State, i: nat) {
    && |s.ring| > 0 && i < |s.writers|
    && (match s.writers[i].pc
        case Outside => s.lock.None? && s.writers[i].left > 0
        case Indexed(idx) => idx < |s.ring|
        case _ => true)
  }

  function Apply(s: State, i: nat): State
    requires Enabled(s, i)
  {
    var w := s.writers[i];
    match w.pc
    case Outside => s.(lock := Some(i), writers := s.writers[i := Writer(Acquired, w.left - 1)])
    case Acquired => s.(writers := s.writers[i := w.(pc := Indexed(s.cursor % |s.ring|))])
    case Indexed(idx) => s.(ring := s.ring[idx := s.cursor], writers := s.writers[i := w.(pc := Wrote)])
    case Wrote => s.(writers := s.writers[i := w.(pc := Loaded(s.cursor))])
    case Loaded(value) => s.(cursor := value + 1, writers := s.writers[i := w.(pc := Advanced)])
    case Advanced => s.(lock := None, writers := s.writers[i := w.(pc := Outside)])
  }

  predicate Admissible(s: State, evs: seq<nat>)
    decreases |evs|
  {
    evs == [] || (Enabled(s, evs[0]) && Admissible(Apply(s, evs[0]), evs[1..]))
  }

  function Exec(s: State, evs: seq<nat>): State
    requires Admissible(s, evs)
    decreases |evs|
  {
    if evs == [] then s else Exec(Apply(s, evs[0]), evs[1..])
  }

  predicate Init(s: State) {
    && s.lock == None && |s.ring| > 0 && 0 <= s.cursor
    && forall i :: 0 <= i < |s.writers| ==> s.writers[i].pc.Outside?
  }

  function Left(w: Writer): int { w.left }

  /** The iterations a writer has begun or has still to begin, and not yet counted in the cursor. */
  function Owed(w: Writer): int {
    w.left + if w.pc.Outside? || w.pc.Advanced? then 0 else 1
  }

  predicate Inside(s: State, i: int) {
    0 <= i < |s.writers| && !s.writers[i].pc.Outside?
  }

  /** How far the ring is: one ticket ahead of the cursor between the two stores of the lock's holder. */
  function Filled(s: State): int
    requires s.lock.Some? ==> s.lock.value < |s.writers|
  {
    if s.lock.Some? && (s.writers[s.lock.value].pc.Wrote? || s.writers[s.lock.value].pc.Loaded?)
    then s.cursor + 1 else s.cursor
  }

  ghost predicate Exclusive(s: State) {
    && (forall i :: Inside(s, i) <==> s.lock == Some(i))
    && (forall i :: 0 <= i < |s.writers| && s.writers[i].pc.Indexed? && |s.ring| > 0 ==>
          s.writers[i].pc.idx == s.cursor % |s.ring|)
    && (forall i :: 0 <= i < |s.writers| && s.writers[i].pc.Loaded? ==> s.writers[i].pc.value == s.cursor)
    && (s.lock.Some? ==> Inside(s, s.lock.value))
  }

  ghost predicate Inv(s0: State, s: State) {
    && |s.ring| == |s0.ring| > 0 && |s.writers| == |s0.writers|
    && 0 <= s0.cursor <= s.cursor
    && Exclusive(s)
    && s.ring == TR.Sequential(s0.ring, s0.cursor, Filled(s))
    && s.cursor + SumBy(s.writers, Owed) == s0.cursor + SumBy(s0.writers, Owed)
  }

  lemma StepKeepsExclusive(s: State, i: nat)
    requires Exclusive(s) && Enabled(s, i)
    ensures Exclusive(Apply(s, i))
  {
    var s' := Apply(s, i);
    assert forall j :: j != i ==> (Inside(s', j) <==> Inside(s, j));
    assert Inside(s, i) <==> !s.writers[i].pc.Outside?;
    forall j | 0 <= j < |s.writers| && j != i && Inside(s, i) ensures s'.writers[j].pc.Outside? {
      assert !Inside(s, j);
    }
  }

  lemma StepKeepsInv(s0: State, s: State, i: nat)
    requires Inv(s0, s) && Enabled(s, i)
    ensures Inv(s0, Apply(s, i))
  {
    var s' := Apply(s, i);
    StepKeepsExclusive(s, i);
    SumByUpdate(s.writers, i, s'.writers[i], Owed);
    assert Inside(s, i) <==> !s.writers[i].pc.Outside?;
    StepFills(s, i);
  }

  /** Only the store into the slot moves the ring on, by one ticket. */
  lemma StepFills(s: State, i: nat)
    requires Exclusive(s) && Enabled(s, i)
    ensures s.lock.Some? ==> s.lock.value < |s.writers|
    ensures var s' := Apply(s, i);
      && (s'.lock.Some? ==> s'.lock.value < |s'.writers|)
      && (if s.writers[i].pc.Indexed?
          then Filled(s') == Filled(s) + 1 && s'.ring == TR.AppendTicket(s.ring, Filled(s))
          else Filled(s') == Filled(s) && s'.ring == s.ring)
  {
    assert Inside(s, i) <==> !s.writers[i].pc.Outside?;
  }

  lemma {:induction false} RunKeepsInv(s0: State, s: State, evs: seq<nat>)
    requires Inv(s0, s) && Admissible(s, evs)
    ensures Inv(s0, Exec(s, evs))
    decreases |evs|
  {
    if evs == [] {
    } else {
      StepKeepsInv(s0, s, evs[0]);
      RunKeepsInv(s0, Apply(s, evs[0]), evs[1..]);
    }
  }

  /**
   In every run: one writer at a time; whenever the lock is free the ring is the sequential one; and at all
   times the ring has every ticket below the cursor, so that no ticket is published before it is stored.
   */
  lemma FreeLockMeansSequential(s0: State, evs: seq<nat>)
    requires Init(s0) && Admissible(s0, evs)
    ensures var s := Exec(s0, evs);
      && (forall i, j :: Inside(s, i) && Inside(s, j) ==> i == j)
      && s0.cursor <= s.cursor
      && (s.lock == None ==> s.ring == TR.Sequential(s0.ring, s0.cursor, s.cursor))
      && (s.ring == TR.Sequential(s0.ring, s0.cursor, s.cursor)
          || s.ring == TR.Sequential(s0.ring, s0.cursor, s.cursor + 1))
  {
    RunKeepsInv(s0, s0, evs);
  }

  predicate Final(s: State) {
    forall i :: 0 <= i < |s.writers| ==> s.writers[i] == Writer(Outside, 0)
  }

  // ----- Progress

  /** The steps a writer has still to make, six for each iteration. */
  function Steps(w: Writer): int {
    6 * w.left + match w.pc
      case Outside => 0
      case Acquired => 5
      case Indexed(_) => 4
      case Wrote => 3
      case Loaded(_) => 2
      case Advanced => 1
  }

  function Measure(s: State): int {
    SumBy(s.writers, Steps)
  }

  lemma StepMeasure(s: State, i: nat)
    requires Enabled(s, i)
    ensures Measure(Apply(s, i)) == Measure(s) - 1
  {
    SumByUpdate(s.writers, i, Apply(s, i).writers[i], Steps);
  }

  lemma MeasureOfFinal(s: State)
    ensures Measure(s) >= 0
    ensures Measure(s) == 0 <==> Final(s)
  {
    SumByNonNegative(s.writers, Steps);
    if Final(s) {
      SumByBounds(s.writers, Steps, 0, 0);
    } else {
      var i :| 0 <= i < |s.writers| && s.writers[i] != Writer(Outside, 0);
      SumByAtLeast(s.writers, Steps, i);
    }
  }

  /** Until all iterations have ended, the holder of the lock can step, or a waiting writer can take the lock. */
  lemma NeverStuck(s0: State, s: State) returns (i: nat)
    requires Inv(s0, s) && !Final(s)
    ensures Enabled(s, i)
  {
    if s.lock.Some? {
      i := s.lock.value;
      assert Inside(s, i);
    } else {
      i :| i < |s.writers| && s.writers[i] != Writer(Outside, 0);
      assert !Inside(s, i);
    }
  }

  lemma {:induction false} RunMeasure(s: State, evs: seq<nat>)
    requires Admissible(s, evs)
    ensures Measure(Exec(s, evs)) == Measure(s) - |evs|
    decreases |evs|
  {
    if evs == [] {
    } else {
      StepMeasure(s, evs[0]);
      RunMeasure(Apply(s, evs[0]), evs[1..]);
    }
  }

  lemma {:induction false} SixfoldLeft(ws: seq<Writer>)
    requires forall i :: 0 <= i < |ws| ==> ws[i].pc.Outside?
    ensures SumBy(ws, Steps) == 6 * SumBy(ws, Left)
  {
    if ws == [] {
    } else {
      SixfoldLeft(ws[1..]);
    }
  }

  /** Every run is finite: six steps for each iteration, and that many exactly when all have ended. */
  lemma SixStepsPerIteration(s0: State, evs: seq<nat>)
    requires Init(s0) && Admissible(s0, evs)
    ensures |evs| <= 6 * SumBy(s0.writers, Left)
    ensures |evs| == 6 * SumBy(s0.writers, Left) <==> Final(Exec(s0, evs))
  {
    RunMeasure(s0, evs);
    MeasureOfFinal(Exec(s0, evs));
    SixfoldLeft(s0.writers);
  }

  /** From every reachable state some continuation ends all iterations. */
  lemma {:induction false} Completes(s0: State, s: State) returns (more: seq<nat>)
    requires Inv(s0, s)
    ensures Admissible(s, more) && Final(Exec(s, more))
    decreases Measure(s)
  {
    MeasureOfFinal(s);
    if Final(s) {
      more := [];
    } else {
      var i := NeverStuck(s0, s);
      StepMeasure(s, i);
      StepKeepsInv(s0, s, i);
      MeasureOfFinal(Apply(s, i));
      var rest := Completes(s0, Apply(s, i));
      more := [i] + rest;
      assert more[1..] == rest;
    }
  }

  /** In every run: some continuation ends all iterations, and every one that cannot go on has ended them. */
  lemma RunsCanComplete(s0: State, evs: seq<nat>)
    requires Init(s0) && Admissible(s0, evs)
    ensures exists more :: Admissible(Exec(s0, evs), more) && Final(Exec(Exec(s0, evs), more))
    ensures (forall i: nat :: !Enabled(Exec(s0, evs), i)) <==> Final(Exec(s0, evs))
  {
    RunKeepsInv(s0, s0, evs);
    var s := Exec(s0, evs);
    var more := Completes(s0, s);
    if !Final(s) { var i := NeverStuck(s0, s); }
  }

  /** The lock form, run to completion, has appended one ticket per iteration. */
  lemma LockCompletes(l0: State, levs: seq<nat>)
    requires Init(l0) && Admissible(l0, levs) && Final(Exec(l0, levs))
    ensures var l := Exec(l0, levs);
      && l0.cursor <= l.cursor == l0.cursor + SumBy(l0.writers, Owed)
      && l.ring == TR.Sequential(l0.ring, l0.cursor, l.cursor)
  {
    RunKeepsInv(l0, l0, levs);
    var l := Exec(l0, levs);
    SumByBounds(l.writers, Owed, 0, 0);
    assert forall i :: !Inside(l, i);
  }

  /**
   The compare-and-exchange form and the lock form, run to completion from the same counters and ring
   with the same iterations for each writer, in any two interleavings, end with the same counter and
   the same ring.
   */
  lemma CasAndLockAgree(c0: TR.State, cevs: seq<TR.Event>, l0: State, levs: seq<nat>)
    requires TR.Init(c0) && Init(l0) && c0.cursor == l0.cursor && c0.ring == l0.ring
    requires |c0.threads| == |l0.writers| && TR.Writers(c0) <= |c0.ring|
    requires forall i :: 0 <= i < |c0.threads| ==> c0.threads[i].left == l0.writers[i].left
    requires TR.Admissible(TR.Unbounded, c0, cevs) && TR.Strong(cevs)
    requires TicketRingProgress.Final(TR.Exec(TR.Unbounded, c0, cevs))
    requires Admissible(l0, levs) && Final(Exec(l0, levs))
    ensures var c := TR.Exec(TR.Unbounded, c0, cevs);
      var l := Exec(l0, levs);
      c.cursor == c.next == l.cursor && c.ring == l.ring
  {
    TicketRingProgress.CompleteRunPublishesAll(c0, cevs);
    TicketRingTheorems.QuiescentIsSequential(c0, cevs);
    LockCompletes(l0, levs);
    SumByAgree(c0.threads, TR.Left, l0.writers, Owed);
  }
}
