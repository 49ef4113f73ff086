/**
 Which clock reading each timestamp of the Go harness holds, in terms of the schedule alone: the clock starts
 at some value and advances by the delays that the steps of the schedule carry.
 */
module GoClock {
  import opened Sequences
  import opened WorkSlices
  import opened GoHarness
  import opened GoSafety

  /** The time that passes before a step that reads the clock. */
  function Delay(e: Event): int {
    match e
    case Begin(_, d) => d
    case EndSend(_, d) => d
    case Stamp(_, d) => d
    case _ => 0
  }

  /** The clock just after step j of a schedule that starts at time t0. */
  function ClockAfter(t0: int, evs: seq<Event>, j: nat): int
    requires j < |evs|
  {
    t0 + SumBy(evs[..j + 1], Delay)
  }

  lemma {:induction false} ClockAddsDelays(cfg: Config, s: State, evs: seq<Event>)
    requires Admissible(cfg, s, evs)
    ensures Exec(cfg, s, evs).now == s.now + SumBy(evs, Delay)
    decreases |evs|
  {
    if evs == [] {
    } else {
      ClockAddsDelays(cfg, Apply(cfg, s, evs[0]), evs[1..]);
    }
  }

  /** A run consists of its first j steps and the others. */
  lemma {:induction false} RunSplits(cfg: Config, s: State, evs: seq<Event>, j: nat)
    requires Admissible(cfg, s, evs) && j <= |evs|
    ensures Admissible(cfg, s, evs[..j]) && Admissible(cfg, Exec(cfg, s, evs[..j]), evs[j..])
    ensures Exec(cfg, Exec(cfg, s, evs[..j]), evs[j..]) == Exec(cfg, s, evs)
    decreases |evs|
  {
    if j == 0 {
      assert evs[0..] == evs;
    } else {
      RunSplits(cfg, Apply(cfg, s, evs[0]), evs[1..], j - 1);
      assert evs[..j][1..] == evs[1..][..j - 1] && evs[1..][j - 1..] == evs[j..];
    }
  }

  /** Step j of the run, the state before it and the state after it. */
  lemma StepOfRun(cfg: Config, s: State, evs: seq<Event>, j: nat)
    requires Admissible(cfg, s, evs) && j < |evs|
    ensures Admissible(cfg, s, evs[..j]) && Enabled(cfg, Exec(cfg, s, evs[..j]), evs[j])
    ensures var t := Apply(cfg, Exec(cfg, s, evs[..j]), evs[j]);
      && t.now == ClockAfter(s.now, evs, j)
      && Admissible(cfg, t, evs[j + 1..]) && Exec(cfg, t, evs[j + 1..]) == Exec(cfg, s, evs)
  {
    RunSplits(cfg, s, evs, j);
    assert evs[j..][1..] == evs[j + 1..];
    RunSplits(cfg, s, evs, j + 1);
    ClockAddsDelays(cfg, s, evs[..j + 1]);
    RunSplits(cfg, s, evs[..j + 1], j);
    assert evs[..j + 1][..j] == evs[..j] && evs[..j + 1][j..] == [evs[j]];
    assert [evs[j]][1..] == [];
  }

  /** Step j of the rest of a run is step j + 1 of the run. */
  lemma Shifted(cfg: Config, s: State, evs: seq<Event>, j: nat)
    requires Admissible(cfg, s, evs) && evs != [] && j < |evs[1..]|
    ensures evs[1..][j] == evs[j + 1]
    ensures Admissible(cfg, s, evs[..j + 1]) && Admissible(cfg, Apply(cfg, s, evs[0]), evs[1..][..j])
    ensures Exec(cfg, s, evs[..j + 1]) == Exec(cfg, Apply(cfg, s, evs[0]), evs[1..][..j])
  {
    RunSplits(cfg, s, evs, j + 1);
    assert evs[..j + 1][1..] == evs[1..][..j];
  }

  // ----- The steps at which the timestamps of a block are taken

  /** Step j of the schedule takes the first timestamp of block k of producer p, before it is sent. */
  ghost predicate Begins(cfg: Config, s: State, evs: seq<Event>, j: nat, p: nat, k: nat) {
    && j < |evs| && evs[j].Begin? && evs[j].p == p && Admissible(cfg, s, evs[..j])
    && var t := Exec(cfg, s, evs[..j]); p < |t.producers| && t.producers[p] == Next(k)
  }

  /** Step j takes the second timestamp, after the block has been sent. */
  ghost predicate Ends(cfg: Config, s: State, evs: seq<Event>, j: nat, p: nat, k: nat) {
    && j < |evs| && evs[j].EndSend? && evs[j].p == p && Admissible(cfg, s, evs[..j])
    && var t := Exec(cfg, s, evs[..j]); p < |t.producers| && t.producers[p] == Sent(k)
  }

  /** Step j takes the third timestamp, by the consumer that has received the block. */
  ghost predicate Receipt(cfg: Config, s: State, evs: seq<Event>, j: nat, p: nat, k: nat) {
    && j < |evs| && evs[j].Stamp? && Admissible(cfg, s, evs[..j])
    && HeldBy(Exec(cfg, s, evs[..j]), p, k, evs[j].c)
  }

  // ----- What later steps leave alone

  lemma StepKeepsBegun(cfg: Config, s: State, e: Event, p: nat, k: nat)
    requires ValidConfig(cfg) && Shape(cfg, s) && Working(cfg, s) && Enabled(cfg, s, e)
    requires InPlan(cfg.plans, p, k) && Begun(s, p, k) && Shape(cfg, Apply(cfg, s, e))
    ensures var s' := Apply(cfg, s, e);
      && Begun(s', p, k)
      && s'.ts0[IdOf(cfg.plans, p, k)] == s.ts0[IdOf(cfg.plans, p, k)]
  {
    if e.Begin? { OtherSlots(cfg, p, k, e.p, s.producers[e.p].k); }
  }

  lemma {:induction false} RunKeepsBegun(cfg: Config, s: State, evs: seq<Event>, p: nat, k: nat)
    requires Inv(cfg, s) && Admissible(cfg, s, evs) && InPlan(cfg.plans, p, k) && Begun(s, p, k)
    ensures var t := Exec(cfg, s, evs);
      Shape(cfg, t) && Begun(t, p, k) && t.ts0[IdOf(cfg.plans, p, k)] == s.ts0[IdOf(cfg.plans, p, k)]
    decreases |evs|
  {
    if evs == [] {
    } else {
      StepKeepsInv(cfg, s, evs[0]);
      StepKeepsBegun(cfg, s, evs[0], p, k);
      RunKeepsBegun(cfg, Apply(cfg, s, evs[0]), evs[1..], p, k);
    }
  }

  lemma StepKeepsEnded(cfg: Config, s: State, e: Event, p: nat, k: nat)
    requires ValidConfig(cfg) && Shape(cfg, s) && Working(cfg, s) && Enabled(cfg, s, e)
    requires InPlan(cfg.plans, p, k) && EndedSend(s, p, k) && Shape(cfg, Apply(cfg, s, e))
    ensures var s' := Apply(cfg, s, e);
      && EndedSend(s', p, k)
      && s'.ts1[IdOf(cfg.plans, p, k)] == s.ts1[IdOf(cfg.plans, p, k)]
  {
    if e.EndSend? { OtherSlots(cfg, p, k, e.p, s.producers[e.p].k); }
  }

  lemma {:induction false} RunKeepsEnded(cfg: Config, s: State, evs: seq<Event>, p: nat, k: nat)
    requires Inv(cfg, s) && Admissible(cfg, s, evs) && InPlan(cfg.plans, p, k) && EndedSend(s, p, k)
    ensures var t := Exec(cfg, s, evs);
      Shape(cfg, t) && EndedSend(t, p, k) && t.ts1[IdOf(cfg.plans, p, k)] == s.ts1[IdOf(cfg.plans, p, k)]
    decreases |evs|
  {
    if evs == [] {
    } else {
      StepKeepsInv(cfg, s, evs[0]);
      StepKeepsEnded(cfg, s, evs[0], p, k);
      RunKeepsEnded(cfg, Apply(cfg, s, evs[0]), evs[1..], p, k);
    }
  }

  /** A block is held by one consumer at a time, and only after it has been handed over. */
  ghost predicate OneHolder(s: State) {
    && (forall p: nat, k: nat, b, c :: HeldBy(s, p, k, b) && HeldBy(s, p, k, c) ==> b == c)
    && (forall p: nat, k: nat, c :: HeldBy(s, p, k, c) ==> p < |s.producers| && k < SentOf(s.producers[p]))
  }

  lemma StepKeepsOneHolder(cfg: Config, s: State, e: Event)
    requires Shape(cfg, s) && Working(cfg, s) && OneHolder(s) && Enabled(cfg, s, e)
    ensures OneHolder(Apply(cfg, s, e))
  {
    var s' := Apply(cfg, s, e);
    assert forall p :: 0 <= p < |s.producers| ==> SentOf(s.producers[p]) <= SentOf(s'.producers[p]);
    if e.Deliver? {
      var k := s.producers[e.p].k;
      assert forall c :: !HeldBy(s, e.p, k, c);
      assert forall p: nat, j: nat, c :: HeldBy(s', p, j, c) <==>
        (if c == e.c then p == e.p && j == k else HeldBy(s, p, j, c));
    } else {
      assert forall p: nat, k: nat, c :: HeldBy(s', p, k, c) ==> HeldBy(s, p, k, c);
    }
  }

  /** The block has been handed over and its third timestamp taken. */
  ghost predicate Received(s: State, p: nat, k: nat)
    requires p < |s.producers|
  {
    k < SentOf(s.producers[p]) && !IsHeld(s, p, k)
  }

  lemma StepKeepsReceived(cfg: Config, s: State, e: Event, p: nat, k: nat)
    requires ValidConfig(cfg) && Shape(cfg, s) && Working(cfg, s) && Enabled(cfg, s, e)
    requires InPlan(cfg.plans, p, k) && Received(s, p, k) && Shape(cfg, Apply(cfg, s, e))
    ensures var s' := Apply(cfg, s, e);
      && Received(s', p, k)
      && s'.ts2[IdOf(cfg.plans, p, k)] == s.ts2[IdOf(cfg.plans, p, k)]
  {
    var s' := Apply(cfg, s, e);
    forall c ensures !HeldBy(s', p, k, c) { assert !HeldBy(s, p, k, c); }
    if e.Stamp? {
      var w := s.consumers[e.c];
      assert !HeldBy(s, p, k, e.c);
      OtherSlots(cfg, p, k, w.p, w.k);
    }
  }

  lemma {:induction false} RunKeepsReceived(cfg: Config, s: State, evs: seq<Event>, p: nat, k: nat)
    requires Inv(cfg, s) && Admissible(cfg, s, evs) && InPlan(cfg.plans, p, k) && Received(s, p, k)
    ensures var t := Exec(cfg, s, evs);
      Shape(cfg, t) && Received(t, p, k) && t.ts2[IdOf(cfg.plans, p, k)] == s.ts2[IdOf(cfg.plans, p, k)]
    decreases |evs|
  {
    if evs == [] {
    } else {
      StepKeepsInv(cfg, s, evs[0]);
      StepKeepsReceived(cfg, s, evs[0], p, k);
      RunKeepsReceived(cfg, Apply(cfg, s, evs[0]), evs[1..], p, k);
    }
  }

  lemma {:induction false} RunKeepsOneHolder(cfg: Config, s: State, evs: seq<Event>)
    requires Inv(cfg, s) && OneHolder(s) && Admissible(cfg, s, evs)
    ensures Inv(cfg, Exec(cfg, s, evs)) && OneHolder(Exec(cfg, s, evs))
    decreases |evs|
  {
    if evs == [] {
    } else {
      StepKeepsInv(cfg, s, evs[0]);
      StepKeepsOneHolder(cfg, s, evs[0]);
      RunKeepsOneHolder(cfg, Apply(cfg, s, evs[0]), evs[1..]);
    }
  }

  // ----- What each of the steps leaves

  lemma BeginSets(cfg: Config, s: State, p: nat, d: nat)
    requires Enabled(cfg, s, Begin(p, d))
    ensures var t := Apply(cfg, s, Begin(p, d));
      var k := s.producers[p].k;
      && p < |t.producers| && Begun(t, p, k)
      && 0 <= IdOf(cfg.plans, p, k) < |t.ts0| && t.ts0[IdOf(cfg.plans, p, k)] == Some(t.now)
  {
  }

  lemma EndSets(cfg: Config, s: State, p: nat, d: nat)
    requires Enabled(cfg, s, EndSend(p, d))
    ensures var t := Apply(cfg, s, EndSend(p, d));
      var k := s.producers[p].k;
      && p < |t.producers| && EndedSend(t, p, k)
      && 0 <= IdOf(cfg.plans, p, k) < |t.ts1| && t.ts1[IdOf(cfg.plans, p, k)] == Some(t.now)
  {
  }

  lemma StampSets(cfg: Config, s: State, c: nat, d: nat)
    requires Enabled(cfg, s, Stamp(c, d)) && OneHolder(s)
    ensures var t := Apply(cfg, s, Stamp(c, d));
      var w := s.consumers[c];
      && w.p < |t.producers| && Received(t, w.p, w.k)
      && 0 <= IdOf(cfg.plans, w.p, w.k) < |t.ts2| && t.ts2[IdOf(cfg.plans, w.p, w.k)] == Some(t.now)
  {
    var t, w := Apply(cfg, s, Stamp(c, d)), s.consumers[c];
    assert HeldBy(s, w.p, w.k, c);
    forall b ensures !HeldBy(t, w.p, w.k, b) {
      if b != c { assert HeldBy(t, w.p, w.k, b) ==> HeldBy(s, w.p, w.k, b); }
    }
  }

  /** The first timestamp is the clock just after the step that took it. */
  lemma BeginReading(cfg: Config, start: int, evs: seq<Event>, j: nat, p: nat, k: nat)
    requires ValidConfig(cfg) && Admissible(cfg, InitialState(cfg, start), evs)
    requires Begins(cfg, InitialState(cfg, start), evs, j, p, k)
    ensures InPlan(cfg.plans, p, k)
    ensures var s := Exec(cfg, InitialState(cfg, start), evs);
      Shape(cfg, s) && s.ts0[IdOf(cfg.plans, p, k)] == Some(ClockAfter(start, evs, j))
  {
    var s0 := InitialState(cfg, start);
    StepOfRun(cfg, s0, evs, j);
    InitHasInv(cfg, start);
    RunKeepsInv(cfg, s0, evs[..j]);
    var s := Exec(cfg, s0, evs[..j]);
    StepKeepsInv(cfg, s, evs[j]);
    BeginSets(cfg, s, p, evs[j].d);
    RunKeepsBegun(cfg, Apply(cfg, s, evs[j]), evs[j + 1..], p, k);
  }

  /** The second timestamp is the clock just after the step that took it. */
  lemma EndReading(cfg: Config, start: int, evs: seq<Event>, j: nat, p: nat, k: nat)
    requires ValidConfig(cfg) && Admissible(cfg, InitialState(cfg, start), evs)
    requires Ends(cfg, InitialState(cfg, start), evs, j, p, k)
    ensures InPlan(cfg.plans, p, k)
    ensures var s := Exec(cfg, InitialState(cfg, start), evs);
      Shape(cfg, s) && s.ts1[IdOf(cfg.plans, p, k)] == Some(ClockAfter(start, evs, j))
  {
    var s0 := InitialState(cfg, start);
    StepOfRun(cfg, s0, evs, j);
    InitHasInv(cfg, start);
    RunKeepsInv(cfg, s0, evs[..j]);
    var s := Exec(cfg, s0, evs[..j]);
    StepKeepsInv(cfg, s, evs[j]);
    EndSets(cfg, s, p, evs[j].d);
    RunKeepsEnded(cfg, Apply(cfg, s, evs[j]), evs[j + 1..], p, k);
  }

  /** The third timestamp is the clock just after the step that took it. */
  lemma ReceiptReading(cfg: Config, start: int, evs: seq<Event>, j: nat, p: nat, k: nat)
    requires ValidConfig(cfg) && Admissible(cfg, InitialState(cfg, start), evs)
    requires Receipt(cfg, InitialState(cfg, start), evs, j, p, k)
    ensures InPlan(cfg.plans, p, k)
    ensures var s := Exec(cfg, InitialState(cfg, start), evs);
      Shape(cfg, s) && s.ts2[IdOf(cfg.plans, p, k)] == Some(ClockAfter(start, evs, j))
  {
    var s0 := InitialState(cfg, start);
    StepOfRun(cfg, s0, evs, j);
    InitHasInv(cfg, start);
    assert OneHolder(s0);
    RunKeepsOneHolder(cfg, s0, evs[..j]);
    var s := Exec(cfg, s0, evs[..j]);
    StepKeepsInv(cfg, s, evs[j]);
    StampSets(cfg, s, evs[j].c, evs[j].d);
    RunKeepsReceived(cfg, Apply(cfg, s, evs[j]), evs[j + 1..], p, k);
  }

  // ----- Every timestamp was taken

  lemma BegunByBegin(cfg: Config, s: State, e: Event, p: nat, k: nat)
    requires Shape(cfg, s) && Working(cfg, s) && Enabled(cfg, s, e) && p < |s.producers|
    requires !Begun(s, p, k) && Begun(Apply(cfg, s, e), p, k)
    ensures e.Begin? && e.p == p && s.producers[p] == Next(k)
  {
  }

  lemma {:induction false} FindBegin(cfg: Config, s: State, evs: seq<Event>, p: nat, k: nat) returns (j: nat)
    requires Inv(cfg, s) && Admissible(cfg, s, evs) && InPlan(cfg.plans, p, k) && !Begun(s, p, k)
    requires p < |Exec(cfg, s, evs).producers| && Begun(Exec(cfg, s, evs), p, k)
    ensures Begins(cfg, s, evs, j, p, k)
    decreases |evs|
  {
    var s' := Apply(cfg, s, evs[0]);
    if Begun(s', p, k) {
      BegunByBegin(cfg, s, evs[0], p, k);
      j := 0;
      assert evs[..0] == [];
    } else {
      StepKeepsInv(cfg, s, evs[0]);
      var i := FindBegin(cfg, s', evs[1..], p, k);
      Shifted(cfg, s, evs, i);
      j := i + 1;
    }
  }

  lemma EndedByEnd(cfg: Config, s: State, e: Event, p: nat, k: nat)
    requires Shape(cfg, s) && Working(cfg, s) && Enabled(cfg, s, e) && p < |s.producers|
    requires !EndedSend(s, p, k) && EndedSend(Apply(cfg, s, e), p, k)
    ensures e.EndSend? && e.p == p && s.producers[p] == Sent(k)
  {
  }

  lemma {:induction false} FindEnd(cfg: Config, s: State, evs: seq<Event>, p: nat, k: nat) returns (j: nat)
    requires Inv(cfg, s) && Admissible(cfg, s, evs) && InPlan(cfg.plans, p, k) && !EndedSend(s, p, k)
    requires p < |Exec(cfg, s, evs).producers| && EndedSend(Exec(cfg, s, evs), p, k)
    ensures Ends(cfg, s, evs, j, p, k)
    decreases |evs|
  {
    var s' := Apply(cfg, s, evs[0]);
    if EndedSend(s', p, k) {
      EndedByEnd(cfg, s, evs[0], p, k);
      j := 0;
      assert evs[..0] == [];
    } else {
      StepKeepsInv(cfg, s, evs[0]);
      var i := FindEnd(cfg, s', evs[1..], p, k);
      Shifted(cfg, s, evs, i);
      j := i + 1;
    }
  }

  /** The step after which a block has been received is a stamp of its holder. */
  lemma ReceivedByStamp(cfg: Config, s: State, e: Event, p: nat, k: nat)
    requires Shape(cfg, s) && Working(cfg, s) && Enabled(cfg, s, e) && p < |s.producers|
    requires !Received(s, p, k) && Received(Apply(cfg, s, e), p, k)
    ensures e.Stamp? && HeldBy(s, p, k, e.c)
  {
    var s' := Apply(cfg, s, e);
    if k < SentOf(s.producers[p]) {
      var c :| HeldBy(s, p, k, c);
      assert !HeldBy(s', p, k, c);
    } else if e.Deliver? {
      assert HeldBy(s', e.p, s.producers[e.p].k, e.c);
    }
  }

  lemma {:induction false} FindReceipt(cfg: Config, s: State, evs: seq<Event>, p: nat, k: nat) returns (j: nat)
    requires Inv(cfg, s) && Admissible(cfg, s, evs) && InPlan(cfg.plans, p, k) && !Received(s, p, k)
    requires p < |Exec(cfg, s, evs).producers| && Received(Exec(cfg, s, evs), p, k)
    ensures Receipt(cfg, s, evs, j, p, k)
    decreases |evs|
  {
    var s' := Apply(cfg, s, evs[0]);
    if Received(s', p, k) {
      ReceivedByStamp(cfg, s, evs[0], p, k);
      j := 0;
      assert evs[..0] == [];
    } else {
      StepKeepsInv(cfg, s, evs[0]);
      var i := FindReceipt(cfg, s', evs[1..], p, k);
      Shifted(cfg, s, evs, i);
      j := i + 1;
    }
  }

  /** Steps i, j and l took the three timestamps of the block, and these are in the block. */
  ghost predicate Clocked(cfg: Config, start: int, evs: seq<Event>, p: nat, k: nat, i: nat, j: nat, l: nat) {
    var s0 := InitialState(cfg, start);
    && Begins(cfg, s0, evs, i, p, k) && Ends(cfg, s0, evs, j, p, k) && Receipt(cfg, s0, evs, l, p, k)
    && Admissible(cfg, s0, evs) && HasSlot(cfg, Exec(cfg, s0, evs), p, k)
    && var s := Exec(cfg, s0, evs);
       var id := IdOf(cfg.plans, p, k);
       && s.ts0[id] == Some(ClockAfter(start, evs, i))
       && s.ts1[id] == Some(ClockAfter(start, evs, j))
       && s.ts2[id] == Some(ClockAfter(start, evs, l))
  }

  ghost predicate IsClocked(cfg: Config, start: int, evs: seq<Event>, p: nat, k: nat) {
    exists i, j, l :: Clocked(cfg, start, evs, p, k, i, j, l)
  }

  lemma SentAndReceivedIsClocked(cfg: Config, start: int, evs: seq<Event>, p: nat, k: nat)
    requires ValidConfig(cfg) && Admissible(cfg, InitialState(cfg, start), evs) && InPlan(cfg.plans, p, k)
    requires var s := Exec(cfg, InitialState(cfg, start), evs);
      p < |s.producers| && EndedSend(s, p, k) && !IsHeld(s, p, k)
    ensures IsClocked(cfg, start, evs, p, k)
  {
    var s0 := InitialState(cfg, start);
    InitHasInv(cfg, start);
    var i := FindBegin(cfg, s0, evs, p, k);
    var j := FindEnd(cfg, s0, evs, p, k);
    var l := FindReceipt(cfg, s0, evs, p, k);
    BeginReading(cfg, start, evs, i, p, k);
    EndReading(cfg, start, evs, j, p, k);
    ReceiptReading(cfg, start, evs, l, p, k);
    assert Clocked(cfg, start, evs, p, k, i, j, l);
  }
}
