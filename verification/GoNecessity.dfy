/**
 Why the condition on the Go harness is needed: for every number of consumers from two on, the last ready
 value can be received before the first, and the first is then taken for a finished producer.
 */
module GoNecessity {
  import opened Sequences
  import opened WorkSlices
  import opened GoHarness
  import opened GoSafety
  import opened GoShutdown

  // ----- The schedule: everyone announces itself, then values 2, ..., n are received, but not 1

  function Adds(k: nat): seq<Event> { seq(k, i requires 0 <= i < k => AddReady(i)) }

  function AfterAdds(cfg: Config, start: int, k: nat): State {
    InitialState(cfg, start).(
      consumerReady := k,
      consumers := seq(cfg.consumers, i requires 0 <= i < cfg.consumers => if i < k then SendReady(i + 1) else Fresh))
  }

  lemma {:induction false} AddsRun(cfg: Config, start: int, k: nat)
    requires k <= cfg.consumers
    ensures Admissible(cfg, InitialState(cfg, start), Adds(k))
    ensures Exec(cfg, InitialState(cfg, start), Adds(k)) == AfterAdds(cfg, start, k)
  {
    if k == 0 {
      assert AfterAdds(cfg, start, 0).consumers == InitialState(cfg, start).consumers;
    } else {
      AddsRun(cfg, start, k - 1);
      var m, e := AfterAdds(cfg, start, k - 1), AddReady(k - 1);
      assert Apply(cfg, m, e).consumers == AfterAdds(cfg, start, k).consumers;
      assert Adds(k) == Adds(k - 1) + [e];
      ExecOne(cfg, m, e);
      ExecAppend(cfg, InitialState(cfg, start), Adds(k - 1), [e]);
    }
  }

  function Signals(k: nat): seq<Event> { seq(k, i requires 0 <= i < k => SignalReady(i + 1)) }

  function AfterSignals(cfg: Config, start: int, k: nat): State {
    AfterAdds(cfg, start, cfg.consumers).(
      main := if k + 1 == cfg.consumers then Spawning(0) else ReadyLoop,
      consumers := seq(cfg.consumers, i requires 0 <= i < cfg.consumers =>
        if 1 <= i <= k then Receiving(i + 1, 0) else SendReady(i + 1)))
  }

  lemma {:induction false} SignalsRun(cfg: Config, start: int, k: nat)
    requires 2 <= cfg.consumers && k < cfg.consumers
    ensures Admissible(cfg, AfterAdds(cfg, start, cfg.consumers), Signals(k))
    ensures Exec(cfg, AfterAdds(cfg, start, cfg.consumers), Signals(k)) == AfterSignals(cfg, start, k)
  {
    var s := AfterAdds(cfg, start, cfg.consumers);
    if k == 0 {
      assert AfterSignals(cfg, start, 0).consumers == s.consumers;
    } else {
      SignalsRun(cfg, start, k - 1);
      var m, e := AfterSignals(cfg, start, k - 1), SignalReady(k);
      assert Apply(cfg, m, e).consumers == AfterSignals(cfg, start, k).consumers;
      assert Signals(k) == Signals(k - 1) + [e];
      ExecOne(cfg, m, e);
      ExecAppend(cfg, s, Signals(k - 1), [e]);
    }
  }

  /** The run in which value n is received before value 1. */
  function LastBeforeFirst(n: nat): seq<Event>
    requires n >= 1
  {
    Adds(n) + Signals(n - 1)
  }

  /** For every n >= 2 the ready loop can end with exactly the value 1 unreceived. */
  lemma ReadyLoopCanEndEarly(cfg: Config, start: int)
    requires ValidConfig(cfg) && cfg.consumers >= 2
    ensures var evs := LastBeforeFirst(cfg.consumers);
      && Admissible(cfg, InitialState(cfg, start), evs)
      && var s := Exec(cfg, InitialState(cfg, start), evs);
         && s == AfterSignals(cfg, start, cfg.consumers - 1)
         && ReadyLoopEnded(s) && s.consumers[0] == SendReady(1) && Pending(s)
  {
    var n := cfg.consumers;
    AddsRun(cfg, start, n);
    SignalsRun(cfg, start, n - 1);
    ExecAppend(cfg, InitialState(cfg, start), Adds(n), Signals(n - 1));
    assert AfterSignals(cfg, start, n - 1).consumers[0] == SendReady(1);
  }

  function Spawns(k: nat): seq<Event> { seq(k, _ => Spawn) }

  function AfterSpawns(cfg: Config, s: State, k: nat): State
    requires |s.producers| == |cfg.plans| >= 1
  {
    s.(main := if k == |cfg.plans| then Joining(0, 0) else Spawning(k),
       producers := seq(|cfg.plans|, p requires 0 <= p < |cfg.plans| => if p < k then Next(0) else s.producers[p]))
  }

  lemma {:induction false} SpawnsRun(cfg: Config, s: State, k: nat)
    requires |s.producers| == |cfg.plans| >= 1 && s.main == Spawning(0) && k <= |cfg.plans|
    ensures Admissible(cfg, s, Spawns(k)) && Exec(cfg, s, Spawns(k)) == AfterSpawns(cfg, s, k)
  {
    if k == 0 {
      assert AfterSpawns(cfg, s, 0).producers == s.producers;
    } else {
      SpawnsRun(cfg, s, k - 1);
      var m := AfterSpawns(cfg, s, k - 1);
      assert Apply(cfg, m, Spawn).producers == AfterSpawns(cfg, s, k).producers;
      assert Spawns(k) == Spawns(k - 1) + [Spawn];
      ExecOne(cfg, m, Spawn);
      ExecAppend(cfg, s, Spawns(k - 1), [Spawn]);
    }
  }

  /** The whole schedule up to the stale value's reception in the join loop. */
  function StaleSchedule(cfg: Config): seq<Event>
    requires cfg.consumers >= 1
  {
    LastBeforeFirst(cfg.consumers) + (Spawns(|cfg.plans|) + [SignalReady(0)])
  }

  /** Where that schedule leads. */
  function StaleState(cfg: Config, start: int): State
    requires |cfg.plans| >= 1 && cfg.consumers >= 1
  {
    AfterSpawns(cfg, AfterSignals(cfg, start, cfg.consumers - 1), |cfg.plans|).(
      main := if |cfg.plans| == 1 then SendingNil(1, 0, 0) else Joining(1, 0),
      consumers := seq(cfg.consumers, i requires 0 <= i < cfg.consumers => Receiving(i + 1, 0)))
  }

  lemma StaleScheduleRun(cfg: Config, start: int)
    requires ValidConfig(cfg) && cfg.consumers >= 2
    ensures Admissible(cfg, InitialState(cfg, start), StaleSchedule(cfg))
    ensures Exec(cfg, InitialState(cfg, start), StaleSchedule(cfg)) == StaleState(cfg, start)
  {
    ReadyLoopCanEndEarly(cfg, start);
    var s := AfterSignals(cfg, start, cfg.consumers - 1);
    var p := |cfg.plans|;
    SpawnsRun(cfg, s, p);
    var m, e := AfterSpawns(cfg, s, p), SignalReady(0);
    assert Apply(cfg, m, e).consumers == StaleState(cfg, start).consumers;
    ExecOne(cfg, m, e);
    ExecAppend(cfg, s, Spawns(p), [e]);
    ExecAppend(cfg, InitialState(cfg, start), LastBeforeFirst(cfg.consumers), Spawns(p) + [e]);
  }

  /**
   For every number of consumers from two on, whatever the producers, there is a run in which the join
   loop counts a finished producer although no producer has signalled, or even sent a block.
   */
  lemma StaleReadyCountedAsProducer(cfg: Config, start: int)
    requires ValidConfig(cfg) && cfg.consumers >= 2
    ensures Admissible(cfg, InitialState(cfg, start), StaleSchedule(cfg))
    ensures var s := Exec(cfg, InitialState(cfg, start), StaleSchedule(cfg));
      && (s.main.Joining? || s.main.SendingNil?) && s.main.pc == 1
      && |s.producers| == |cfg.plans|
      && forall p :: 0 <= p < |s.producers| ==> s.producers[p] == Next(0)
  {
    StaleScheduleRun(cfg, start);
  }

  // ----- A stale 1 lets main leave before some producer has sent anything

  /** Producer p is never scheduled, and main has counted one finished producer too many. */
  ghost predicate Starving(cfg: Config, s: State, p: nat) {
    CountedWith(cfg, s, 1) && !Pending(s) && p < |s.producers| && s.producers[p] == Next(0)
  }

  lemma SomeOtherUnfinished(cfg: Config, s: State, p: nat) returns (q: nat)
    requires Starving(cfg, s, p) && SumBy(s.producers, IsFinished) + 1 < |s.producers|
    ensures q < |s.producers| && q != p && !s.producers[q].Finished?
  {
    var others := s.producers[p := Finished(0)];
    SumByUpdate(s.producers, p, Finished(0), IsFinished);
    if forall q :: 0 <= q < |others| ==> others[q].Finished? { SumByBounds(others, IsFinished, 1, 1); }
    q :| q < |others| && !others[q].Finished?;
  }

  /** A step that is not of producer p, receives no ready value and does not complete the producers. */
  predicate Spares(s: State, e: Event, p: nat) {
    match e
    case SendNil(_) => true
    case Stamp(_, _) => true
    case Publish(_) => true
    case SignalConsumer(_) => true
    case Begin(q, _) => q != p
    case Deliver(q, _) => q != p
    case EndSend(q, _) => q != p
    case SignalProducer(q) => q != p && SumBy(s.producers, IsFinished) + 1 < |s.producers|
    case _ => false
  }

  lemma StepKeepsStarving(cfg: Config, s: State, e: Event, p: nat)
    requires Starving(cfg, s, p) && Enabled(cfg, s, e) && Spares(s, e, p)
    ensures Starving(cfg, Apply(cfg, s, e), p)
  {
    StepKeepsCountedWith(cfg, s, e, 1);
  }

  /** The next step of a run in which producer p is never scheduled. */
  lemma StarvingStep(cfg: Config, s: State, p: nat) returns (e: Event)
    requires Starving(cfg, s, p) && !s.main.Done?
    ensures Enabled(cfg, s, e) && Spares(s, e, p)
  {
    if s.main.SendingNil? {
      e := NilStep(cfg, s);
    } else if s.main.pc < |s.producers| {
      e := OtherProducerStep(cfg, s, p);
    } else {
      e := LeavingStep(cfg, s);
    }
  }

  lemma OtherProducerStep(cfg: Config, s: State, p: nat) returns (e: Event)
    requires Starving(cfg, s, p) && s.main.Joining? && s.main.pc < |s.producers|
    ensures Enabled(cfg, s, e) && Spares(s, e, p)
  {
    var q := SomeOtherUnfinished(cfg, s, p);
    SumByReachesTop(s.consumers, Waits, 1);
    assert !s.consumers[0].SendReady?;
    e := ProducerActs(cfg, s, q, 0);
  }

  lemma {:induction false} StarvingRun(cfg: Config, s: State, p: nat) returns (evs: seq<Event>)
    requires Starving(cfg, s, p)
    ensures Admissible(cfg, s, evs) && Starving(cfg, Exec(cfg, s, evs), p) && Exec(cfg, s, evs).main.Done?
    decreases Measure(cfg, s)
  {
    if s.main.Done? {
      evs := [];
    } else {
      var e := StarvingStep(cfg, s, p);
      StepKeepsStarving(cfg, s, e, p);
      StepMeasure(cfg, s, e);
      MeasureNonNegative(cfg, Apply(cfg, s, e));
      var rest := StarvingRun(cfg, Apply(cfg, s, e), p);
      evs := [e] + rest;
      assert evs[1..] == rest;
    }
  }

  /** At the end all blocks but those of producer p have been counted. */
  lemma StarvedCounts(cfg: Config, s: State, p: nat)
    requires Starving(cfg, s, p) && s.main.Done?
    ensures SumBy(s.readNum, Count) == cfg.total - |cfg.plans[p]|
  {
    var done := Finished(|cfg.plans[p]|);
    var others := s.producers[p := done];
    SumByUpdate(s.producers, p, done, IsFinished);
    SumByUpdate(s.producers, p, done, SentOf);
    SumByReachesTop(others, IsFinished, 1);
    assert forall q :: 0 <= q < |others| ==> others[q].Finished?;
    SumByAgree(others, SentOf, cfg.plans, Length);
    SumByReachesTop(s.consumers, IsGone, 1);
    assert forall c :: 0 <= c < |s.consumers| ==> s.consumers[c].Gone?;
    SumByBounds(s.consumers, Credit, 0, 0);
  }

  /** A run that leaves the join loop with all blocks counted but those of p, which has sent none. */
  ghost predicate LeavesOut(cfg: Config, start: int, evs: seq<Event>, p: nat) {
    && Admissible(cfg, InitialState(cfg, start), evs)
    && var s := Exec(cfg, InitialState(cfg, start), evs);
       && s.main.Done? && p < |s.producers| == |cfg.plans| && s.producers[p] == Next(0)
       && SumBy(s.readNum, Count) == cfg.total - |cfg.plans[p]|
  }

  lemma StaleStateStarves(cfg: Config, start: int, p: nat)
    requires ValidConfig(cfg) && cfg.consumers >= 2 && p < |cfg.plans|
    ensures Starving(cfg, StaleState(cfg, start), p)
  {
    StaleScheduleRun(cfg, start);
    InitHasInv(cfg, start);
    RunKeepsInv(cfg, InitialState(cfg, start), StaleSchedule(cfg));
    var s := StaleState(cfg, start);
    SumByBounds(s.consumers, Waits, 1, 1);
    SumByBounds(s.consumers, IsGone, 0, 0);
    SumByBounds(s.producers, IsFinished, 0, 0);
  }

  /**
   For every number of consumers from two on, and whichever producer p is chosen, main can leave the join
   loop with everybody else finished and p before its first block.
   */
  lemma AnyProducerCanBeLeftOut(cfg: Config, start: int, p: nat)
    requires ValidConfig(cfg) && cfg.consumers >= 2 && p < |cfg.plans|
    ensures exists evs :: LeavesOut(cfg, start, evs, p)
  {
    StaleScheduleRun(cfg, start);
    StaleStateStarves(cfg, start, p);
    var s := StaleState(cfg, start);
    var more := StarvingRun(cfg, s, p);
    StarvedCounts(cfg, Exec(cfg, s, more), p);
    ExecAppend(cfg, InitialState(cfg, start), StaleSchedule(cfg), more);
    assert LeavesOut(cfg, start, StaleSchedule(cfg) + more, p);
  }

  /** A run that leaves the join loop although nothing has been sent. */
  ghost predicate LosesEverything(cfg: Config, start: int, evs: seq<Event>) {
    && Admissible(cfg, InitialState(cfg, start), evs)
    && var s := Exec(cfg, InitialState(cfg, start), evs);
       s.main.Done? && s.producers == [Next(0)] && SumBy(s.readNum, Count) == 0
  }

  /**
   One writer and two or more readers, a configuration the benchmark runs: main can leave the join loop
   with every consumer gone and counting nothing, while the writer has not sent its first block.
   */
  lemma OneProducerCanLoseEverything(cfg: Config, start: int)
    requires ValidConfig(cfg) && |cfg.plans| == 1 && cfg.consumers >= 2
    ensures exists evs :: LosesEverything(cfg, start, evs)
  {
    AnyProducerCanBeLeftOut(cfg, start, 0);
    var evs :| LeavesOut(cfg, start, evs, 0);
    SumByUpper(cfg.plans, Length, |cfg.plans[0]|);
    SumByAtLeast(cfg.plans, Length, 0);
    assert Exec(cfg, InitialState(cfg, start), evs).producers == [Next(0)];
    assert LosesEverything(cfg, start, evs);
  }

  // ----- What can be told before the call

  /** With one consumer a run is in its ready loop or has left it with all ready values received. */
  lemma {:induction false} OneConsumerRun(cfg: Config, s: State, evs: seq<Event>)
    requires cfg.consumers == 1 && Inv(cfg, s) && Early(s) && (s.main.ReadyLoop? || Clean(cfg, s))
    requires Admissible(cfg, s, evs)
    ensures Inv(cfg, Exec(cfg, s, evs))
    ensures Exec(cfg, s, evs).main.ReadyLoop? || Clean(cfg, Exec(cfg, s, evs))
    decreases |evs|
  {
    if evs == [] {
    } else {
      var s' := Apply(cfg, s, evs[0]);
      StepKeepsInv(cfg, s, evs[0]);
      if s.main.ReadyLoop? {
        if !s'.main.ReadyLoop? { CountingBegins(cfg, s'); }
      } else {
        StepKeepsCounted(cfg, s, evs[0]);
      }
      if !s'.main.ReadyLoop? { OnlyValueReceived(cfg, s'); }
      OneConsumerRun(cfg, s', evs[1..]);
    }
  }

  lemma OneConsumerReaches(cfg: Config, start: int, evs: seq<Event>)
    requires ValidConfig(cfg) && cfg.consumers == 1 && Admissible(cfg, InitialState(cfg, start), evs)
    ensures Inv(cfg, Exec(cfg, InitialState(cfg, start), evs))
    ensures var s := Exec(cfg, InitialState(cfg, start), evs); s.main.ReadyLoop? || Clean(cfg, s)
  {
    InitHasInv(cfg, start);
    OneConsumerRun(cfg, InitialState(cfg, start), evs);
  }

  /** The harness can deadlock exactly when it is started with two or more consumers. */
  lemma CanDeadlockIffTwoConsumers(cfg: Config, start: int)
    requires ValidConfig(cfg)
    ensures CanDeadlock(cfg, InitialState(cfg, start)) <==> cfg.consumers >= 2
  {
    var s0 := InitialState(cfg, start);
    if cfg.consumers >= 2 {
      ReadyLoopCanEndEarly(cfg, start);
      var evs := LastBeforeFirst(cfg.consumers);
      EndOfReadyLoop(cfg, start, evs);
      var more := PendingReadyDeadlocks(cfg, Exec(cfg, s0, evs), 0);
      ExecAppend(cfg, s0, evs, more);
      assert Deadlocked(cfg, Exec(cfg, s0, evs + more));
    } else {
      forall evs | Admissible(cfg, s0, evs) ensures !Deadlocked(cfg, Exec(cfg, s0, evs)) {
        OneConsumerReaches(cfg, start, evs);
        NotStuckAlone(cfg, Exec(cfg, s0, evs));
      }
    }
  }

  lemma NotStuckAlone(cfg: Config, s: State)
    requires Inv(cfg, s) && (s.main.ReadyLoop? || Clean(cfg, s))
    ensures !Deadlocked(cfg, s)
  {
    if s.main.ReadyLoop? {
      var e := ReadyLoopNeverStuck(cfg, s);
    } else if !s.main.Done? {
      var e := CleanNeverStuck(cfg, s);
    }
  }

  /** A run that leaves the join loop without all blocks counted. */
  ghost predicate LosesBlocks(cfg: Config, start: int, evs: seq<Event>) {
    && Admissible(cfg, InitialState(cfg, start), evs)
    && var s := Exec(cfg, InitialState(cfg, start), evs);
       s.main.Done? && SumBy(s.readNum, Count) != cfg.total
  }

  /** Main can leave the join loop with blocks missing exactly for two or more consumers and some block. */
  lemma BlocksCanBeLostIffTwoConsumers(cfg: Config, start: int)
    requires ValidConfig(cfg)
    ensures (exists evs :: LosesBlocks(cfg, start, evs)) <==> cfg.consumers >= 2 && cfg.total >= 1
  {
    if cfg.consumers >= 2 && cfg.total >= 1 {
      if forall p :: 0 <= p < |cfg.plans| ==> Length(cfg.plans[p]) == 0 { SumByBounds(cfg.plans, Length, 0, 0); }
      var p: nat :| p < |cfg.plans| && Length(cfg.plans[p]) != 0;
      AnyProducerCanBeLeftOut(cfg, start, p);
      var evs :| LeavesOut(cfg, start, evs, p);
      assert LosesBlocks(cfg, start, evs);
    } else {
      forall evs ensures !LosesBlocks(cfg, start, evs) {
        if LosesBlocks(cfg, start, evs) {
          NothingLost(cfg, start, evs);
        }
      }
    }
  }

  lemma NothingLost(cfg: Config, start: int, evs: seq<Event>)
    requires ValidConfig(cfg) && (cfg.consumers == 1 || cfg.total == 0)
    requires Admissible(cfg, InitialState(cfg, start), evs)
    requires Exec(cfg, InitialState(cfg, start), evs).main.Done?
    ensures SumBy(Exec(cfg, InitialState(cfg, start), evs).readNum, Count) == cfg.total
  {
    var s := Exec(cfg, InitialState(cfg, start), evs);
    if cfg.consumers == 1 {
      OneConsumerReaches(cfg, start, evs);
      DoneDeliversAll(cfg, s);
    } else {
      InitHasInv(cfg, start);
      RunKeepsInv(cfg, InitialState(cfg, start), evs);
      NoBlocks(cfg, s);
    }
  }

  /** Without blocks there is nothing to count. */
  lemma NoBlocks(cfg: Config, s: State)
    requires Inv(cfg, s) && cfg.total == 0
    ensures SumBy(s.readNum, Count) == 0
  {
    forall p | 0 <= p < |s.producers| ensures SentOf(s.producers[p]) == 0 {
      SumByAtLeast(cfg.plans, Length, p);
    }
    SumByBounds(s.producers, SentOf, 0, 0);
    SumByNonNegative(s.consumers, Credit);
    SumByNonNegative(s.readNum, Count);
  }

  /** The condition can fail exactly when there are two or more consumers. */
  lemma ConditionCanFailIffTwoConsumers(cfg: Config, start: int)
    requires ValidConfig(cfg)
    ensures cfg.consumers >= 2 <==>
      exists evs :: Admissible(cfg, InitialState(cfg, start), evs)
        && ReadyLoopEnded(Exec(cfg, InitialState(cfg, start), evs))
        && Pending(Exec(cfg, InitialState(cfg, start), evs))
  {
    if cfg.consumers >= 2 {
      ReadyLoopCanEndEarly(cfg, start);
    } else {
      forall evs | Admissible(cfg, InitialState(cfg, start), evs)
        && ReadyLoopEnded(Exec(cfg, InitialState(cfg, start), evs))
        ensures !Pending(Exec(cfg, InitialState(cfg, start), evs))
      {
        OneConsumerIsClean(cfg, start, evs);
      }
    }
  }
}
