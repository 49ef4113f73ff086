/**
 The shutdown of the Go harness: what the join loop guarantees once the ready loop has ended, and the exact
 condition for it, which is that no ready value is still unreceived when the ready loop ends.
 */
module GoShutdown {
  import opened Sequences
  import opened WorkSlices
  import opened GoHarness
  import opened GoSafety
  import opened GoClock

  /** A consumer that no nil has reached. */
  function Waits(c: Consumer): int { if c.SendReady? || InLoop(c) then 1 else 0 }
  function IsGone(c: Consumer): int { if c.Gone? then 1 else 0 }
  function IsFinished(p: Producer): int { if p.Finished? then 1 else 0 }

  predicate NobodyFresh(s: State) {
    forall c :: 0 <= c < |s.consumers| ==> !s.consumers[c].Fresh?
  }

  /** Some consumer is still trying to send its ready value. */
  predicate Pending(s: State) {
    exists c :: 0 <= c < |s.consumers| && s.consumers[c].SendReady?
  }

  /** The ready loop has just ended. */
  predicate ReadyLoopEnded(s: State) {
    s.main == Spawning(0)
  }

  /**
   The join loop's counters are true but for the given number of ready values that it has taken for finished
   producers, and no consumer has received a nil before main began to send them.
   */
  ghost predicate CountedWith(cfg: Config, s: State, stale: nat) {
    && Inv(cfg, s) && NobodyFresh(s)
    && var waits, gone, fin := SumBy(s.consumers, Waits), SumBy(s.consumers, IsGone), SumBy(s.producers, IsFinished);
       match s.main
       case ReadyLoop => false
       case Spawning(_) => waits == |s.consumers| && fin == stale == 0
       case Joining(pc, cc) =>
         && pc == fin + stale <= |s.producers| && cc == gone < |s.consumers|
         && waits == if pc < |s.producers| then |s.consumers| else 0
       case SendingNil(pc, cc, i) =>
         && pc == fin + stale == |s.producers| && cc == gone == 0
         && i < |s.consumers| && waits == |s.consumers| - i
       case Done => gone == |s.consumers| && fin + stale == |s.producers|
  }

  /** The counters are true, as long as the join loop receives no ready value. */
  ghost predicate Counted(cfg: Config, s: State) {
    CountedWith(cfg, s, 0)
  }

  lemma WaitsUpdate(s: State, c: nat, w: Consumer)
    requires c < |s.consumers|
    ensures SumBy(s.consumers[c := w], Waits) == SumBy(s.consumers, Waits) - Waits(s.consumers[c]) + Waits(w)
    ensures SumBy(s.consumers[c := w], IsGone) == SumBy(s.consumers, IsGone) - IsGone(s.consumers[c]) + IsGone(w)
  {
    SumByUpdate(s.consumers, c, w, Waits);
    SumByUpdate(s.consumers, c, w, IsGone);
  }

  /** Where a consumer has left the loop, not all consumers wait. */
  lemma NotAllWait(s: State, c: nat)
    requires c < |s.consumers| && Waits(s.consumers[c]) == 0
    ensures SumBy(s.consumers, Waits) < |s.consumers|
  {
    if SumBy(s.consumers, Waits) >= |s.consumers| { SumByReachesTop(s.consumers, Waits, 1); }
  }

  lemma SumLimits(s: State)
    ensures 0 <= SumBy(s.consumers, Waits) <= |s.consumers|
    ensures 0 <= SumBy(s.consumers, IsGone) <= |s.consumers|
    ensures 0 <= SumBy(s.producers, IsFinished) <= |s.producers|
  {
    SumByBounds(s.consumers, Waits, 0, 1);
    SumByBounds(s.consumers, IsGone, 0, 1);
    SumByBounds(s.producers, IsFinished, 0, 1);
  }

  lemma WaitingAndGone(s: State)
    ensures SumBy(s.consumers, Waits) + SumBy(s.consumers, IsGone) <= |s.consumers|
  {
    Disjoint(s.consumers);
  }

  lemma {:induction false} Disjoint(cs: seq<Consumer>)
    ensures SumBy(cs, Waits) + SumBy(cs, IsGone) <= |cs|
  {
    if cs == [] {
    } else {
      Disjoint(cs[1..]);
    }
  }

  lemma ConsumerKeepsCounted(cfg: Config, s: State, e: Event, c: nat, stale: nat)
    requires CountedWith(cfg, s, stale) && Enabled(cfg, s, e) && c < |s.consumers|
    requires Inv(cfg, Apply(cfg, s, e))
    requires e == SendNil(c) || (e.Stamp? && e.c == c) || e == Publish(c)
          || e == SignalConsumer(c)
    ensures CountedWith(cfg, Apply(cfg, s, e), stale)
  {
    var s' := Apply(cfg, s, e);
    WaitsUpdate(s, c, s'.consumers[c]);
    SumLimits(s);
    SumLimits(s');
    if Waits(s.consumers[c]) == 0 { NotAllWait(s, c); }
  }

  lemma DeliverKeepsCounted(cfg: Config, s: State, p: nat, c: nat, stale: nat)
    requires CountedWith(cfg, s, stale) && Enabled(cfg, s, Deliver(p, c))
    requires Inv(cfg, Apply(cfg, s, Deliver(p, c)))
    ensures CountedWith(cfg, Apply(cfg, s, Deliver(p, c)), stale)
  {
    var s' := Apply(cfg, s, Deliver(p, c));
    WaitsUpdate(s, c, s'.consumers[c]);
    SumByUpdate(s.producers, p, s'.producers[p], IsFinished);
  }

  lemma ProducerKeepsCounted(cfg: Config, s: State, e: Event, stale: nat)
    requires CountedWith(cfg, s, stale) && Enabled(cfg, s, e)
    requires Inv(cfg, Apply(cfg, s, e))
    requires e.Spawn? || e.Begin? || e.EndSend? || e.SignalProducer?
    requires e.SignalProducer? ==> SumBy(s.producers, IsFinished) + stale < |s.producers|
    ensures CountedWith(cfg, Apply(cfg, s, e), stale)
  {
    var s' := Apply(cfg, s, e);
    var p := if e.Spawn? then s.main.i else e.p;
    SumByUpdate(s.producers, p, s'.producers[p], IsFinished);
    SumLimits(s);
    SumLimits(s');
    WaitingAndGone(s);
  }

  lemma StepKeepsCountedWith(cfg: Config, s: State, e: Event, stale: nat)
    requires CountedWith(cfg, s, stale) && Enabled(cfg, s, e) && !e.SignalReady?
    requires e.SignalProducer? ==> SumBy(s.producers, IsFinished) + stale < |s.producers|
    ensures CountedWith(cfg, Apply(cfg, s, e), stale)
  {
    StepKeepsInv(cfg, s, e);
    match e
    case AddReady(c) => assert false;
    case Deliver(p, c) => DeliverKeepsCounted(cfg, s, p, c, stale);
    case SendNil(c) => ConsumerKeepsCounted(cfg, s, e, c, stale);
    case Stamp(c, _) => ConsumerKeepsCounted(cfg, s, e, c, stale);
    case Publish(c) => ConsumerKeepsCounted(cfg, s, e, c, stale);
    case SignalConsumer(c) => ConsumerKeepsCounted(cfg, s, e, c, stale);
    case _ => ProducerKeepsCounted(cfg, s, e, stale);
  }

  /** An unfinished producer is not among the finished ones. */
  lemma NotAllFinished(s: State, p: nat)
    requires p < |s.producers| && !s.producers[p].Finished?
    ensures SumBy(s.producers, IsFinished) < |s.producers|
  {
    SumLimits(s);
    if SumBy(s.producers, IsFinished) >= |s.producers| { SumByReachesTop(s.producers, IsFinished, 1); }
  }

  lemma StepKeepsCounted(cfg: Config, s: State, e: Event)
    requires Counted(cfg, s) && Enabled(cfg, s, e) && !e.SignalReady?
    ensures Counted(cfg, Apply(cfg, s, e))
  {
    if e.SignalProducer? { NotAllFinished(s, e.p); }
    StepKeepsCountedWith(cfg, s, e, 0);
  }

  /** Before any producer is spawned, consumers only announce themselves. */
  predicate Early(s: State) {
    s.main.ReadyLoop? || s.main == Spawning(0) ==>
      forall c :: 0 <= c < |s.consumers| ==>
        s.consumers[c].Fresh? || s.consumers[c].SendReady? || (s.consumers[c].Receiving? && s.consumers[c].num == 0)
  }

  lemma {:induction false} RunKeepsEarly(cfg: Config, s: State, evs: seq<Event>)
    requires Inv(cfg, s) && Early(s) && Admissible(cfg, s, evs)
    ensures Inv(cfg, Exec(cfg, s, evs)) && Early(Exec(cfg, s, evs))
    decreases |evs|
  {
    if evs == [] {
    } else {
      StepKeepsInv(cfg, s, evs[0]);
      RunKeepsEarly(cfg, Apply(cfg, s, evs[0]), evs[1..]);
    }
  }

  /** When the ready loop ends every consumer waits and no producer has started. */
  lemma CountingBegins(cfg: Config, s: State)
    requires Inv(cfg, s) && Early(s) && ReadyLoopEnded(s)
    ensures Counted(cfg, s)
  {
    ReadyAtMostAll(cfg, s);
    SumByBounds(s.consumers, Waits, 1, 1);
    SumByBounds(s.producers, IsFinished, 0, 0);
  }

  lemma EndOfReadyLoop(cfg: Config, start: int, evs: seq<Event>)
    requires ValidConfig(cfg) && Admissible(cfg, InitialState(cfg, start), evs)
    requires ReadyLoopEnded(Exec(cfg, InitialState(cfg, start), evs))
    ensures Counted(cfg, Exec(cfg, InitialState(cfg, start), evs))
  {
    InitHasInv(cfg, start);
    RunKeepsEarly(cfg, InitialState(cfg, start), evs);
    CountingBegins(cfg, Exec(cfg, InitialState(cfg, start), evs));
  }

  // ----- Progress of the ready loop

  /** There are at most n - 1 different values from 1 to n - 1. */
  lemma {:induction false} Pigeonhole(vs: seq<nat>, n: nat)
    requires n >= 1
    requires forall c :: 0 <= c < |vs| ==> 1 <= vs[c] < n
    requires forall b, c :: 0 <= b < c < |vs| ==> vs[b] != vs[c]
    ensures |vs| < n
    decreases n
  {
    if vs == [] {
    } else {
      var first := vs[0];
      if c :| 0 <= c < |vs| && vs[c] == n - 1 {
        Pigeonhole(vs[..c] + vs[c + 1..], n - 1);
      } else {
        Pigeonhole(vs, n - 1);
      }
    }
  }

  function ValueOf(c: Consumer): nat { if c.Fresh? then 0 else c.v }

  function Values(cs: seq<Consumer>): (vs: seq<nat>)
    ensures |vs| == |cs|
  {
    seq(|cs|, c requires 0 <= c < |cs| => ValueOf(cs[c]))
  }

  /**
   The ready loop cannot be stuck: the consumers have distinct values from 1 to their number, so as long as
   the last value has not been received some consumer has still to draw or to send one.
   */
  lemma ReadyLoopNeverStuck(cfg: Config, s: State) returns (e: Event)
    requires Inv(cfg, s) && s.main.ReadyLoop?
    ensures Enabled(cfg, s, e)
  {
    if c: nat :| c < |s.consumers| && s.consumers[c].Fresh? {
      e := AddReady(c);
    } else if c: nat :| c < |s.consumers| && s.consumers[c].SendReady? {
      e := SignalReady(c);
    } else {
      Pigeonhole(Values(s.consumers), cfg.consumers);
      assert false;
    }
  }

  // ----- Runs in which all ready values were received in the ready loop

  ghost predicate Clean(cfg: Config, s: State) {
    Counted(cfg, s) && !Pending(s)
  }

  lemma {:induction false} RunKeepsClean(cfg: Config, s: State, evs: seq<Event>)
    requires Clean(cfg, s) && Admissible(cfg, s, evs)
    ensures Clean(cfg, Exec(cfg, s, evs))
    decreases |evs|
  {
    if evs == [] {
    } else {
      StepKeepsCounted(cfg, s, evs[0]);
      var s' := Apply(cfg, s, evs[0]);
      assert !Pending(s');
      RunKeepsClean(cfg, s', evs[1..]);
    }
  }

  /** Nils that main has sent so far have reached a consumer each. */
  predicate NilReceived(s: State) {
    exists c :: 0 <= c < |s.consumers| && (s.consumers[c].Leaving? || s.consumers[c].SendDone? || s.consumers[c].Gone?)
  }

  /**
   If all ready values were received in the ready loop, then in whatever follows: a nil is received only
   after every producer has finished; and while nils are being sent, the number still to send is the number
   of consumers still in the receive loop.
   */
  lemma NilsComeLast(cfg: Config, start: int, evs: seq<Event>, more: seq<Event>)
    requires ValidConfig(cfg) && Admissible(cfg, InitialState(cfg, start), evs)
    requires ReadyLoopEnded(Exec(cfg, InitialState(cfg, start), evs))
    requires !Pending(Exec(cfg, InitialState(cfg, start), evs))
    requires Admissible(cfg, Exec(cfg, InitialState(cfg, start), evs), more)
    ensures var s := Exec(cfg, Exec(cfg, InitialState(cfg, start), evs), more);
      && (NilReceived(s) || s.main.SendingNil? ==>
            forall p :: 0 <= p < |s.producers| ==> s.producers[p].Finished?)
      && (s.main.SendingNil? ==> cfg.consumers - s.main.i == SumBy(s.consumers, Waits) > 0)
      && !Pending(s)
  {
    EndOfReadyLoop(cfg, start, evs);
    RunKeepsClean(cfg, Exec(cfg, InitialState(cfg, start), evs), more);
    NilMeansFinished(cfg, Exec(cfg, Exec(cfg, InitialState(cfg, start), evs), more));
  }

  lemma NilMeansFinished(cfg: Config, s: State)
    requires Counted(cfg, s)
    ensures NilReceived(s) || s.main.SendingNil? ==>
      forall p :: 0 <= p < |s.producers| ==> s.producers[p].Finished?
  {
    if NilReceived(s) {
      var c: nat :| c < |s.consumers| && (s.consumers[c].Leaving? || s.consumers[c].SendDone? || s.consumers[c].Gone?);
      NotAllWait(s, c);
    }
    if NilReceived(s) || s.main.SendingNil? {
      SumByReachesTop(s.producers, IsFinished, 1);
    }
  }

  /** Consumer c is done and has left n in its place of consumer_read_num. */
  predicate HasCounted(s: State, c: nat, n: nat) {
    && c < |s.consumers| && s.consumers[c].Gone?
    && 1 <= s.consumers[c].v <= |s.readNum| && s.readNum[s.consumers[c].v - 1] == n
  }

  /** Every block has been counted, and has its three timestamps, the first before the other two. */
  ghost predicate AllDelivered(cfg: Config, s: State) {
    && SumBy(s.readNum, Count) == cfg.total
    && |s.ts0| == |s.ts1| == |s.ts2| == cfg.total
    && forall id :: 0 <= id < cfg.total ==> After(s.ts0[id], s.ts1[id], s.now) && After(s.ts0[id], s.ts2[id], s.now)
  }

  lemma DoneMeansQuiet(cfg: Config, s: State)
    requires Counted(cfg, s) && s.main.Done?
    ensures forall c :: 0 <= c < |s.consumers| ==> s.consumers[c].Gone?
    ensures forall p :: 0 <= p < |s.producers| ==> s.producers[p] == Finished(|cfg.plans[p]|)
  {
    SumByReachesTop(s.producers, IsFinished, 1);
    SumByReachesTop(s.consumers, IsGone, 1);
    assert forall p :: 0 <= p < |s.producers| ==> IsFinished(s.producers[p]) == 1;
  }

  lemma DoneDeliversAll(cfg: Config, s: State)
    requires Counted(cfg, s) && s.main.Done?
    ensures AllDelivered(cfg, s)
  {
    DoneMeansQuiet(cfg, s);
    SumByBounds(s.consumers, Credit, 0, 0);
    SumByAgree(s.producers, SentOf, cfg.plans, Length);
    forall id | 0 <= id < cfg.total
      ensures After(s.ts0[id], s.ts1[id], s.now) && After(s.ts0[id], s.ts2[id], s.now)
    {
      assert Owned(cfg.plans, id);
      var p, k :| InPlan(cfg.plans, p, k) && IdOf(cfg.plans, p, k) == id;
      assert BlockTimes(cfg, s, p, k);
      assert !IsHeld(s, p, k);
    }
  }

  /**
   Under the same condition, when main leaves the join loop every block has been counted by a consumer,
   and every block has its three timestamps, the first before the other two.  Each timestamp is the clock
   just after the step that took it, and each consumer has counted the blocks handed over to it.
   */
  lemma CleanRunDeliversAll(cfg: Config, start: int, evs: seq<Event>, more: seq<Event>)
    requires ValidConfig(cfg) && Admissible(cfg, InitialState(cfg, start), evs)
    requires ReadyLoopEnded(Exec(cfg, InitialState(cfg, start), evs))
    requires !Pending(Exec(cfg, InitialState(cfg, start), evs))
    requires Admissible(cfg, Exec(cfg, InitialState(cfg, start), evs), more)
    requires Exec(cfg, Exec(cfg, InitialState(cfg, start), evs), more).main.Done?
    ensures var s := Exec(cfg, Exec(cfg, InitialState(cfg, start), evs), more);
      && SumBy(s.readNum, Count) == cfg.total
      && |s.ts0| == |s.ts1| == |s.ts2| == cfg.total
      && forall id :: 0 <= id < cfg.total ==> After(s.ts0[id], s.ts1[id], s.now) && After(s.ts0[id], s.ts2[id], s.now)
    ensures forall p: nat, k: nat :: InPlan(cfg.plans, p, k) ==> IsClocked(cfg, start, evs + more, p, k)
    ensures var s := Exec(cfg, Exec(cfg, InitialState(cfg, start), evs), more);
      forall c :: 0 <= c < cfg.consumers ==> HasCounted(s, c, Deliveries(evs + more, c))
  {
    EndOfReadyLoop(cfg, start, evs);
    RunKeepsClean(cfg, Exec(cfg, InitialState(cfg, start), evs), more);
    var s := Exec(cfg, Exec(cfg, InitialState(cfg, start), evs), more);
    DoneDeliversAll(cfg, s);
    DoneMeansQuiet(cfg, s);
    ExecAppend(cfg, InitialState(cfg, start), evs, more);
    forall p: nat, k: nat | InPlan(cfg.plans, p, k) ensures IsClocked(cfg, start, evs + more, p, k) {
      assert !IsHeld(s, p, k);
      SentAndReceivedIsClocked(cfg, start, evs + more, p, k);
    }
    forall c | 0 <= c < cfg.consumers ensures HasCounted(s, c, Deliveries(evs + more, c)) {
      PublishedCount(cfg, start, evs + more, c);
    }
  }

  // ----- Progress

  /** Steps a consumer has still to make, and steps it makes with its blocks counted at the producer. */
  function ConsumerSteps(c: Consumer): int {
    match c
    case Fresh => 5
    case SendReady(_) => 4
    case Receiving(_, _) => 3
    case Got(_, _, _, _) => 4
    case Leaving(_, _) => 2
    case SendDone(_) => 1
    case Gone(_) => 0
  }

  function ProducerSteps(plan: seq<int>, p: Producer): int {
    match p
    case Unspawned => 4 * |plan| + 2
    case Next(k) => 4 * (|plan| - k) + 1
    case Stamped(k) => 4 * (|plan| - k)
    case Sent(k) => 4 * (|plan| - k) - 2
    case Finished(_) => 0
  }

  function ProducerStepsAll(cfg: Config, s: State): (ws: seq<int>)
    requires Shape(cfg, s)
    ensures |ws| == |s.producers|
  {
    seq(|s.producers|, p requires 0 <= p < |s.producers| => ProducerSteps(cfg.plans[p], s.producers[p]))
  }

  function Itself(x: int): int { x }

  function ProducerPart(cfg: Config, s: State): int
    requires Shape(cfg, s)
  {
    SumBy(ProducerStepsAll(cfg, s), Itself)
  }

  function Measure(cfg: Config, s: State): int
    requires Shape(cfg, s)
  {
    ProducerPart(cfg, s) + SumBy(s.consumers, ConsumerSteps)
  }

  /** One producer makes a step. */
  lemma ProducerPartUpdate(cfg: Config, s: State, s': State, p: nat)
    requires Shape(cfg, s) && Shape(cfg, s') && p < |s.producers|
    requires s'.producers == s.producers[p := s'.producers[p]]
    ensures ProducerPart(cfg, s') == ProducerPart(cfg, s)
      - ProducerSteps(cfg.plans[p], s.producers[p]) + ProducerSteps(cfg.plans[p], s'.producers[p])
  {
    var ws, ws' := ProducerStepsAll(cfg, s), ProducerStepsAll(cfg, s');
    assert ws' == ws[p := ws'[p]];
    SumByUpdate(ws, p, ws'[p], Itself);
  }

  lemma ProducerStepMeasure(cfg: Config, s: State, e: Event)
    requires Shape(cfg, s) && Working(cfg, s) && Enabled(cfg, s, e) && Shape(cfg, Apply(cfg, s, e))
    requires e.Spawn? || e.Begin? || e.Deliver? || e.EndSend? || e.SignalProducer?
    ensures ProducerPart(cfg, Apply(cfg, s, e)) == ProducerPart(cfg, s) - if e.Deliver? then 2 else 1
  {
    ProducerPartUpdate(cfg, s, Apply(cfg, s, e), if e.Spawn? then s.main.i else e.p);
  }

  lemma ConsumerStepMeasure(cfg: Config, s: State, e: Event)
    requires Enabled(cfg, s, e) && !(e.Spawn? || e.Begin? || e.EndSend? || e.SignalProducer?)
    ensures SumBy(Apply(cfg, s, e).consumers, ConsumerSteps)
         == SumBy(s.consumers, ConsumerSteps) + if e.Deliver? then 1 else -1
  {
    SumByUpdate(s.consumers, e.c, Apply(cfg, s, e).consumers[e.c], ConsumerSteps);
  }

  /** Every step, in every run, uses up exactly one unit of the measure. */
  lemma StepMeasure(cfg: Config, s: State, e: Event)
    requires Shape(cfg, s) && Working(cfg, s) && Enabled(cfg, s, e) && Shape(cfg, Apply(cfg, s, e))
    ensures Measure(cfg, Apply(cfg, s, e)) == Measure(cfg, s) - 1
  {
    if e.Spawn? || e.Begin? || e.Deliver? || e.EndSend? || e.SignalProducer? {
      ProducerStepMeasure(cfg, s, e);
    } else {
      assert ProducerStepsAll(cfg, Apply(cfg, s, e)) == ProducerStepsAll(cfg, s);
    }
    if !(e.Spawn? || e.Begin? || e.EndSend? || e.SignalProducer?) { ConsumerStepMeasure(cfg, s, e); }
  }

  lemma MeasureNonNegative(cfg: Config, s: State)
    requires Shape(cfg, s) && Working(cfg, s)
    ensures Measure(cfg, s) >= 0
  {
    SumByNonNegative(ProducerStepsAll(cfg, s), Itself);
    SumByNonNegative(s.consumers, ConsumerSteps);
  }

  /** While main joins, an unfinished producer can step or meets a consumer in its loop. */
  lemma ProducerActs(cfg: Config, s: State, p: nat, c: nat) returns (e: Event)
    requires Inv(cfg, s) && s.main.Joining?
    requires p < |s.producers| && !s.producers[p].Finished?
    requires c < |s.consumers| && InLoop(s.consumers[c])
    ensures Enabled(cfg, s, e) && !e.SignalReady?
    ensures e == Stamp(c, 0) || e == Begin(p, 0) || e == EndSend(p, 0) || e == Deliver(p, c) || e == SignalProducer(p)
  {
    match s.producers[p]
    case Next(k) => e := if InPlan(cfg.plans, p, k) then Begin(p, 0) else SignalProducer(p);
    case Sent(k) => assert InPlan(cfg.plans, p, k); e := EndSend(p, 0);
    case Stamped(_) => e := if s.consumers[c].Got? then Stamp(c, 0) else Deliver(p, c);
  }

  /** While main joins producers, an unfinished one can step or meets the consumer received last. */
  lemma SomeProducerActs(cfg: Config, s: State) returns (e: Event)
    requires Counted(cfg, s) && s.main.Joining? && s.main.pc < |s.producers|
    ensures Enabled(cfg, s, e) && !e.SignalReady?
  {
    if forall p :: 0 <= p < |s.producers| ==> s.producers[p].Finished? {
      SumByBounds(s.producers, IsFinished, 1, 1);
    }
    var p: nat :| p < |s.producers| && !s.producers[p].Finished?;
    var c :| HasValue(s, c, cfg.consumers) && !s.consumers[c].SendReady?;
    SumByReachesTop(s.consumers, Waits, 1);
    e := ProducerActs(cfg, s, p, c);
  }

  /** While main sends nils, some consumer can receive one or has a block to stamp before. */
  lemma NilStep(cfg: Config, s: State) returns (e: Event)
    requires Inv(cfg, s) && s.main.SendingNil? && !Pending(s) && SumBy(s.consumers, Waits) > 0
    ensures Enabled(cfg, s, e) && (e.Stamp? || e.SendNil?)
  {
    if forall c :: 0 <= c < |s.consumers| ==> Waits(s.consumers[c]) == 0 {
      SumByBounds(s.consumers, Waits, 0, 0);
    }
    var c: nat :| c < |s.consumers| && Waits(s.consumers[c]) != 0;
    e := if s.consumers[c].Got? then Stamp(c, 0) else SendNil(c);
  }

  /** While main joins consumers that have all received a nil, one of them can step. */
  lemma LeavingStep(cfg: Config, s: State) returns (e: Event)
    requires Inv(cfg, s) && NobodyFresh(s) && s.main.Joining?
    requires SumBy(s.consumers, Waits) == 0 && SumBy(s.consumers, IsGone) < |s.consumers|
    ensures Enabled(cfg, s, e) && (e.Publish? || e.SignalConsumer?)
  {
    if forall c :: 0 <= c < |s.consumers| ==> s.consumers[c].Gone? {
      SumByBounds(s.consumers, IsGone, 1, 1);
    }
    var c: nat :| c < |s.consumers| && !s.consumers[c].Gone?;
    if Waits(s.consumers[c]) == 1 { SumByAtLeast(s.consumers, Waits, c); }
    e := if s.consumers[c].Leaving? then Publish(c) else SignalConsumer(c);
  }

  /** Under the condition no reachable state before the end of the join loop is stuck. */
  lemma CleanNeverStuck(cfg: Config, s: State) returns (e: Event)
    requires Clean(cfg, s) && !s.main.Done?
    ensures Enabled(cfg, s, e) && !e.SignalReady?
  {
    SumLimits(s);
    match s.main {
      case Spawning(_) => e := Spawn;
      case Joining(pc, _) =>
        if pc < |s.producers| { e := SomeProducerActs(cfg, s); } else { e := LeavingStep(cfg, s); }
      case SendingNil(_, _, _) => e := NilStep(cfg, s);
    }
  }

  /** Main has not left the join loop and nobody can step. */
  ghost predicate Deadlocked(cfg: Config, s: State) {
    !s.main.Done? && forall e :: !Enabled(cfg, s, e)
  }

  ghost predicate CanDeadlock(cfg: Config, s: State) {
    exists more :: Admissible(cfg, s, more) && Deadlocked(cfg, Exec(cfg, s, more))
  }

  // ----- A pending ready value leads to a deadlock

  /** Without receiving the pending ready values, run on until nothing else can step. */
  lemma {:induction false} RunWithoutReady(cfg: Config, s: State, c: nat) returns (evs: seq<Event>)
    requires Counted(cfg, s) && c < |s.consumers| && s.consumers[c].SendReady?
    ensures Admissible(cfg, s, evs)
    ensures var t := Exec(cfg, s, evs);
      && Counted(cfg, t) && |t.consumers| == |s.consumers| && t.consumers[c].SendReady?
      && forall e :: Enabled(cfg, t, e) ==> e.SignalReady?
    decreases Measure(cfg, s)
  {
    if e :| Enabled(cfg, s, e) && !e.SignalReady? {
      StepKeepsCounted(cfg, s, e);
      var s' := Apply(cfg, s, e);
      StepMeasure(cfg, s, e);
      MeasureNonNegative(cfg, s');
      var rest := RunWithoutReady(cfg, s', c);
      evs := [e] + rest;
      assert evs[1..] == rest;
    } else {
      evs := [];
    }
  }

  lemma CanSpawn(cfg: Config, s: State)
    requires Inv(cfg, s) && s.main.Spawning?
    ensures Enabled(cfg, s, Spawn)
  {
  }

  lemma PendingReadyDeadlocks(cfg: Config, s: State, c: nat) returns (evs: seq<Event>)
    requires Counted(cfg, s) && c < |s.consumers| && s.consumers[c].SendReady?
    ensures Admissible(cfg, s, evs) && Deadlocked(cfg, Exec(cfg, s, evs))
  {
    evs := RunWithoutReady(cfg, s, c);
    var t := Exec(cfg, s, evs);
    SumByAtLeast(t.consumers, Waits, c);
    WaitingAndGone(t);
    assert !t.main.Spawning? by {
      if t.main.Spawning? { CanSpawn(cfg, t); }
    }
    assert !t.main.Joining? by {
      if t.main.Joining? { var e := SomeProducerActs(cfg, t); }
    }
    assert t.main.SendingNil?;
  }

  /**
   The exact condition.  From the end of the ready loop on, the harness can deadlock if and only if some
   consumer's ready value is still unreceived there.
   */
  lemma DeadlockIffReadyPending(cfg: Config, start: int, evs: seq<Event>)
    requires ValidConfig(cfg) && Admissible(cfg, InitialState(cfg, start), evs)
    requires ReadyLoopEnded(Exec(cfg, InitialState(cfg, start), evs))
    ensures var s := Exec(cfg, InitialState(cfg, start), evs);
      CanDeadlock(cfg, s) <==> Pending(s)
  {
    EndOfReadyLoop(cfg, start, evs);
    var s := Exec(cfg, InitialState(cfg, start), evs);
    if Pending(s) {
      var c: nat :| c < |s.consumers| && s.consumers[c].SendReady?;
      var more := PendingReadyDeadlocks(cfg, s, c);
      assert Admissible(cfg, s, more) && Deadlocked(cfg, Exec(cfg, s, more));
    } else {
      forall more | Admissible(cfg, s, more) ensures !Deadlocked(cfg, Exec(cfg, s, more)) {
        RunKeepsClean(cfg, s, more);
        if !Exec(cfg, s, more).main.Done? {
          var e := CleanNeverStuck(cfg, Exec(cfg, s, more));
        }
      }
    }
  }

  /** A single consumer has sent its ready value when the ready loop ends. */
  lemma OnlyValueReceived(cfg: Config, s: State)
    requires Inv(cfg, s) && cfg.consumers == 1 && !s.main.ReadyLoop?
    ensures !Pending(s)
  {
    var c :| HasValue(s, c, cfg.consumers) && !s.consumers[c].SendReady?;
    assert c == 0;
  }

  /** With one consumer the condition always holds. */
  lemma OneConsumerIsClean(cfg: Config, start: int, evs: seq<Event>)
    requires ValidConfig(cfg) && cfg.consumers == 1 && Admissible(cfg, InitialState(cfg, start), evs)
    requires ReadyLoopEnded(Exec(cfg, InitialState(cfg, start), evs))
    ensures !Pending(Exec(cfg, InitialState(cfg, start), evs))
  {
    InitHasInv(cfg, start);
    RunKeepsInv(cfg, InitialState(cfg, start), evs);
    OnlyValueReceived(cfg, Exec(cfg, InitialState(cfg, start), evs));
  }

  lemma {:induction false} RunMeasure(cfg: Config, s: State, evs: seq<Event>)
    requires Inv(cfg, s) && Admissible(cfg, s, evs)
    ensures Inv(cfg, Exec(cfg, s, evs)) && Measure(cfg, Exec(cfg, s, evs)) == Measure(cfg, s) - |evs|
    decreases |evs|
  {
    if evs == [] {
    } else {
      StepKeepsInv(cfg, s, evs[0]);
      StepMeasure(cfg, s, evs[0]);
      RunMeasure(cfg, Apply(cfg, s, evs[0]), evs[1..]);
    }
  }

  /** The steps of a complete run: four per block, two per producer, five per consumer. */
  function RunLength(cfg: Config): int {
    4 * cfg.total + 2 * |cfg.plans| + 5 * cfg.consumers
  }

  function PlanSteps(plan: seq<int>): int { 4 * |plan| + 2 }

  lemma {:induction false} PlanStepsSum(plans: Plans)
    ensures SumBy(plans, PlanSteps) == 4 * SumBy(plans, Length) + 2 * |plans|
  {
    if plans == [] {
    } else {
      PlanStepsSum(plans[1..]);
    }
  }

  lemma InitialMeasure(cfg: Config, start: int)
    requires ValidConfig(cfg)
    ensures Shape(cfg, InitialState(cfg, start)) && Measure(cfg, InitialState(cfg, start)) == RunLength(cfg)
  {
    var s0 := InitialState(cfg, start);
    SumByBounds(s0.consumers, ConsumerSteps, 5, 5);
    PlanStepsSum(cfg.plans);
    SumByAgree(ProducerStepsAll(cfg, s0), Itself, cfg.plans, PlanSteps);
  }

  /** Under the condition only the end of the join loop leaves nothing to do. */
  lemma MeasureOfDone(cfg: Config, t: State)
    requires Clean(cfg, t)
    ensures Measure(cfg, t) == 0 <==> t.main.Done?
  {
    if t.main.Done? {
      SumByReachesTop(t.producers, IsFinished, 1);
      SumByReachesTop(t.consumers, IsGone, 1);
      SumByBounds(t.consumers, ConsumerSteps, 0, 0);
      SumByBounds(ProducerStepsAll(cfg, t), Itself, 0, 0);
    } else {
      var e := CleanNeverStuck(cfg, t);
      StepKeepsInv(cfg, t, e);
      StepMeasure(cfg, t, e);
      MeasureNonNegative(cfg, Apply(cfg, t, e));
    }
  }

  /**
   Every run is finite, whatever its interleaving, and under the condition the runs that cannot be
   continued are those of full length, which have left the join loop.
   */
  lemma RunsAreFinite(cfg: Config, start: int, evs: seq<Event>, more: seq<Event>)
    requires ValidConfig(cfg) && Admissible(cfg, InitialState(cfg, start), evs)
    requires ReadyLoopEnded(Exec(cfg, InitialState(cfg, start), evs))
    requires Admissible(cfg, Exec(cfg, InitialState(cfg, start), evs), more)
    ensures |evs| + |more| <= RunLength(cfg)
    ensures !Pending(Exec(cfg, InitialState(cfg, start), evs)) ==>
      (|evs| + |more| == RunLength(cfg) <==>
         Exec(cfg, Exec(cfg, InitialState(cfg, start), evs), more).main.Done?)
  {
    InitHasInv(cfg, start);
    InitialMeasure(cfg, start);
    RunMeasure(cfg, InitialState(cfg, start), evs);
    var s := Exec(cfg, InitialState(cfg, start), evs);
    RunMeasure(cfg, s, more);
    MeasureNonNegative(cfg, Exec(cfg, s, more));
    if !Pending(s) {
      EndOfReadyLoop(cfg, start, evs);
      RunKeepsClean(cfg, s, more);
      MeasureOfDone(cfg, Exec(cfg, s, more));
    }
  }
}
