/** More writers than slots: the condition under which a slot can go back to an earlier ticket. */
module TicketRingOverflow {
  import opened Sequences
  import opened TicketRing
  import opened TicketRingSafety
  import opened TicketRingTheorems

  /** Some step of some run replaces the ticket in a slot by an earlier one. */
  ghost predicate CanRegress(s0: State) {
    exists evs, e, k: nat :: Regresses(s0, evs, e, k)
  }

  ghost predicate Regresses(s0: State, evs: seq<Event>, e: Event, k: nat) {
    && Admissible(Unbounded, s0, evs)
    && Enabled(Exec(Unbounded, s0, evs), e)
    && var s := Exec(Unbounded, s0, evs);
       var s' := Apply(Unbounded, s, e);
       k < |s.ring| == |s'.ring| && s'.ring[k] < s.ring[k]
  }

  /** n writers have taken a ticket each and nobody has stored yet. */
  ghost predicate AllTicketed(s0: State, s: State, n: nat) {
    && Inv(s0, s)
    && s.cursor == s0.cursor && s.ring == s0.ring && s.dropped == []
    && (forall i :: 0 <= i < |s.threads| ==> !s.threads[i].pc.Stored?)
    && SumBy(s.threads, Busy) == n && Writers(s) == Writers(s0)
  }

  /** A writer that has work and is not yet inside an iteration. */
  lemma {:induction false} SomeIdleWriter(ths: seq<Thread>) returns (i: nat)
    requires SumBy(ths, Busy) < SumBy(ths, Engaged)
    ensures i < |ths| && ths[i].pc.Idle? && ths[i].left > 0
  {
    if Busy(ths[0]) < Engaged(ths[0]) {
      i := 0;
    } else {
      var j := SomeIdleWriter(ths[1..]);
      i := j + 1;
    }
  }

  /** As many writers with work as wanted can take their tickets before anybody stores. */
  lemma {:induction false} TakesRun(s0: State, n: nat) returns (evs: seq<Event>)
    requires Init(s0) && n <= Writers(s0)
    ensures Admissible(Unbounded, s0, evs) && AllTicketed(s0, Exec(Unbounded, s0, evs), n)
  {
    if n == 0 {
      evs := [];
      InitHasInv(s0);
      NobodyBusy(s0);
    } else {
      var before := TakesRun(s0, n - 1);
      var m := Exec(Unbounded, s0, before);
      var i := SomeIdleWriter(m.threads);
      StepKeepsInv(s0, m, Take(i));
      ThreadsUpdate(m, i, Apply(Unbounded, m, Take(i)).threads[i]);
      evs := before + [Take(i)];
      ExecOne(m, Take(i));
      ExecAppend(Unbounded, s0, before, [Take(i)]);
    }
  }

  lemma ExecOne(s: State, e: Event)
    requires Enabled(s, e)
    ensures Admissible(Unbounded, s, [e]) && Exec(Unbounded, s, [e]) == Apply(Unbounded, s, e)
  {
    assert [e][0] == e && [e][1..] == [];
  }

  /**
   With one writer more than slots, the last of them can store first and the first of them after it,
   into the same slot.
   */
  lemma OneTooManyRegresses(s0: State)
    requires Init(s0) && Writers(s0) > |s0.ring|
    ensures CanRegress(s0)
  {
    var cap := |s0.ring|;
    var evs := TakesRun(s0, cap + 1);
    var m := Exec(Unbounded, s0, evs);
    assert Held(m, m.cursor + cap) && Held(m, m.cursor);
    var i :| Holds(m, i, m.cursor + cap);
    var j :| Holds(m, j, m.cursor);
    var s := Apply(Unbounded, m, Store(i));
    ExecOne(m, Store(i));
    ExecAppend(Unbounded, s0, evs, [Store(i)]);
    ShiftedSlot(m.cursor + cap, cap);
    assert s.threads[j].pc == Ticketed(m.cursor);
    assert Regresses(s0, evs + [Store(i)], Store(j), m.cursor % cap);
  }

  /** Slots never go back exactly when the writers that have work fit the slots. */
  lemma RegressesIffTooManyWriters(s0: State)
    requires Init(s0)
    ensures CanRegress(s0) <==> Writers(s0) > |s0.ring|
  {
    if Writers(s0) > |s0.ring| {
      OneTooManyRegresses(s0);
    } else if CanRegress(s0) {
      var evs, e, k: nat :| Regresses(s0, evs, e, k);
      ReachableInv(s0, evs);
      StampsIncrease(s0, evs, e, k);
    }
  }
}
