/** Exactly-once delivery, end-marker ordering, timing and termination of the Java harness. */
module JavaTheorems {
  import opened Sequences
  import opened WorkSlices
  import opened JavaHarness
  import opened JavaSafety
  import opened JavaClock

  /**
   Whoever takes an end marker does so when every producer has put all its messages and every one of
   them has left the queue.
   */
  lemma MarkerComesLast(cfg: Config, s0: State, evs: seq<Event>, c: nat)
    requires ValidConfig(cfg) && Init(cfg, s0) && Admissible(cfg, s0, evs)
    requires var s := Exec(cfg, s0, evs);
      Enabled(cfg, s, TakeMessage(c)) && s.queue[0].EndMarker?
    ensures var s := Exec(cfg, s0, evs);
      && |s.producers| == |cfg.plans|
      && (forall p :: 0 <= p < |s.producers| ==> s.producers[p].next == |cfg.plans[p]|)
      && (forall p, k: nat :: InPlan(cfg.plans, p, k) ==> WasTaken(s, Data(p, k)))
  {
    ReachableInv(cfg, s0, evs);
    MarkerAtHead(cfg, Exec(cfg, s0, evs));
  }

  lemma MarkerAtHead(cfg: Config, s: State)
    requires Phase(cfg, s) && Fifo(cfg, s) && PutLog(cfg, s) && s.queue != [] && s.queue[0].EndMarker?
    ensures forall p :: 0 <= p < |s.producers| ==> s.producers[p].next == |cfg.plans[p]|
    ensures forall p, k: nat :: InPlan(cfg.plans, p, k) ==> WasTaken(s, Data(p, k))
  {
    assert s.puts[|s.takes|] == EndMarker;
    assert EndMarker in s.puts;
    forall p, k: nat | InPlan(cfg.plans, p, k) ensures WasTaken(s, Data(p, k)) {
      assert Data(p, k) in s.puts;
      var j :| 0 <= j < |s.puts| && s.puts[j] == Data(p, k);
      assert s.takes[j].msg == Data(p, k);
    }
  }

  /** The messages of one producer leave the queue in the order in which it put them. */
  lemma ProducerOrderKept(cfg: Config, s0: State, evs: seq<Event>, i: nat, j: nat)
    requires ValidConfig(cfg) && Init(cfg, s0) && Admissible(cfg, s0, evs)
    requires var s := Exec(cfg, s0, evs);
      i < j < |s.takes| && SameProducer(s.takes[i].msg, s.takes[j].msg)
    ensures var s := Exec(cfg, s0, evs); s.takes[i].msg.k < s.takes[j].msg.k
  {
    ReachableInv(cfg, s0, evs);
    var s := Exec(cfg, s0, evs);
    assert SameProducer(s.puts[i], s.puts[j]);
  }

  /**
   The consumers' test for an end marker is exact: of the messages that enter the queue the end markers, and
   no others, have the id -1, and the others have an index into the records.
   */
  lemma MarkerTestIsExact(cfg: Config, s0: State, evs: seq<Event>, j: nat)
    requires ValidConfig(cfg) && Init(cfg, s0) && Admissible(cfg, s0, evs)
    requires j < |Exec(cfg, s0, evs).puts|
    ensures var m := Exec(cfg, s0, evs).puts[j];
      && (Id(cfg, m) == -1 <==> m.EndMarker?)
      && (m.Data? ==> 0 <= Id(cfg, m) < cfg.recordCount)
  {
    ReachableInv(cfg, s0, evs);
    var m := Exec(cfg, s0, evs).puts[j];
    assert m.Data? ==> InPlan(cfg.plans, m.p, m.k);
  }

  /** The id that the j-th taking delivers; -1 for an end marker. */
  function TakenId(cfg: Config, s: State, j: nat): int
    requires j < |s.takes|
  {
    Id(cfg, s.takes[j].msg)
  }

  /** With the blocks of ids of the Java producers, the ids of one producer leave in increasing order. */
  lemma JavaIdsLeaveInOrder(cfg: Config, count: nat, s0: State, evs: seq<Event>, i: nat, j: nat)
    requires ValidConfig(cfg) && cfg.plans == JavaPlans(|cfg.plans|, count)
    requires Init(cfg, s0) && Admissible(cfg, s0, evs)
    requires var s := Exec(cfg, s0, evs);
      i < j < |s.takes| && SameProducer(s.takes[i].msg, s.takes[j].msg)
    ensures var s := Exec(cfg, s0, evs);
      0 <= TakenId(cfg, s, i) < TakenId(cfg, s, j) < cfg.recordCount
  {
    ReachableInv(cfg, s0, evs);
    ProducerOrderKept(cfg, s0, evs, i, j);
    var s := Exec(cfg, s0, evs);
    var m, n := s.puts[i], s.puts[j];
    assert InPlan(cfg.plans, m.p, m.k) && InPlan(cfg.plans, n.p, n.k);
    assert IdOf(cfg.plans, m.p, m.k) == m.p * count + m.k && IdOf(cfg.plans, n.p, n.k) == n.p * count + n.k;
  }

  /** No id is ever delivered twice. */
  lemma AtMostOnce(cfg: Config, s0: State, evs: seq<Event>, i: nat, j: nat)
    requires ValidConfig(cfg) && Init(cfg, s0) && Admissible(cfg, s0, evs)
    requires var s := Exec(cfg, s0, evs);
      i < j < |s.takes| && TakenId(cfg, s, i) == TakenId(cfg, s, j)
    ensures var s := Exec(cfg, s0, evs);
      s.takes[i].msg.EndMarker? && s.takes[j].msg.EndMarker?
  {
    ReachableInv(cfg, s0, evs);
    var s := Exec(cfg, s0, evs);
    var m, n := s.puts[i], s.puts[j];
    if m.Data? && n.Data? { assert SameProducer(m, n); }
  }

  /** Taking j of the log delivers the id to consumer c. */
  ghost predicate Delivers(cfg: Config, s: State, j: int, id: int) {
    0 <= j < |s.takes| && s.takes[j].msg.Data? && TakenId(cfg, s, j) == id
  }

  ghost predicate Delivered(cfg: Config, s: State, id: int) {
    exists j :: Delivers(cfg, s, j, id)
  }

  /**
   When run returns: the queue is empty; each id in [0, recordCount) was delivered exactly once, to one
   consumer; every consumer took exactly one end marker, as its last message, and counted all the
   others; and the total is the number of records.
   */
  lemma RunDeliversExactlyOnce(cfg: Config, s0: State, evs: seq<Event>)
    requires ValidConfig(cfg) && Init(cfg, s0) && Admissible(cfg, s0, evs)
    requires Exec(cfg, s0, evs).main.Returned?
    ensures var s := Exec(cfg, s0, evs);
      && s.queue == []
      && s.main.total == cfg.recordCount
      && (forall id :: 0 <= id < cfg.recordCount ==> Delivered(cfg, s, id))
      && (forall i, j, id :: Delivers(cfg, s, i, id) && Delivers(cfg, s, j, id) ==> i == j)
      && |s.consumers| == cfg.consumers
      && (forall c: nat :: c < |s.consumers| ==>
            var taken := TakenBy(s.takes, c);
            && |taken| == s.consumers[c].totalRead + 1
            && (forall j :: 0 <= j < |taken| ==> (taken[j].EndMarker? <==> j == |taken| - 1)))
  {
    ReachableInv(cfg, s0, evs);
    var s := Exec(cfg, s0, evs);
    ReturnedCounts(cfg, s0.now, s);
    forall id | 0 <= id < cfg.recordCount ensures Delivered(cfg, s, id) {
      assert Owned(cfg.plans, id);
      var p, k :| InPlan(cfg.plans, p, k) && IdOf(cfg.plans, p, k) == id;
      assert k < Sent(s.producers[p]);
      var j :| 0 <= j < |s.puts| && s.puts[j] == Data(p, k);
      assert s.takes[j].msg == Data(p, k);
      assert Delivers(cfg, s, j, id);
    }
    forall i, j, id | Delivers(cfg, s, i, id) && Delivers(cfg, s, j, id) ensures i == j {
      if i < j { AtMostOnce(cfg, s0, evs, i, j); }
      if j < i { AtMostOnce(cfg, s0, evs, j, i); }
    }
    forall c: nat | c < |s.consumers|
      ensures TakerOk(s.consumers[c], TakenBy(s.takes, c)) && s.consumers[c].pc.Exited?
    {
    }
  }

  lemma ReturnedCounts(cfg: Config, t0: int, s: State)
    requires Inv(cfg, t0, s) && s.main.Returned?
    ensures s.queue == [] && s.main.total == cfg.recordCount && |s.takes| == cfg.recordCount + cfg.consumers
  {
    NoMarkerQueued(cfg, s);
    if s.queue != [] {
      QueueOfMarkers(cfg, s);
      SumByBounds(s.queue, IsMarker, 1, 1);
    }
    ReturnedTotal(cfg, s);
  }

  /** As many markers have been taken as consumers have left, and all have. */
  lemma NoMarkerQueued(cfg: Config, s: State)
    requires Phase(cfg, s) && Counts(cfg, s) && s.main.Returned?
    ensures SumBy(s.queue, IsMarker) == 0 && SumBy(s.takes, MarkerTake) == cfg.consumers
  {
    SumByBounds(s.consumers, HasExited, 1, 1);
  }

  lemma ReturnedTotal(cfg: Config, s: State)
    requires Tiles(cfg.plans, cfg.recordCount)
    requires Phase(cfg, s) && Counts(cfg, s) && s.main.Returned? && s.queue == []
    ensures s.main.total == cfg.recordCount && |s.takes| == cfg.recordCount + cfg.consumers
  {
    NoMarkerQueued(cfg, s);
    SumByAgree(s.producers, Sent, cfg.plans, Length);
    SumByAgree(s.consumers, ReadOrHeld, s.consumers, TotalRead);
  }

  /** When every consumer has taken its marker, no data can be left behind the markers. */
  lemma QueueOfMarkers(cfg: Config, s: State)
    requires Phase(cfg, s) && PutLog(cfg, s) && Fifo(cfg, s) && Takers(cfg, s)
    requires cfg.consumers >= 1 && s.main.Returned? && s.queue != []
    ensures forall j :: 0 <= j < |s.queue| ==> s.queue[j].EndMarker?
  {
    MarkerWasPut(cfg, s);
    var i :| 0 <= i < |s.takes| && s.puts[i].EndMarker?;
    forall j | 0 <= j < |s.queue| ensures s.queue[j].EndMarker? {
      assert s.queue[j] == s.puts[|s.takes| + j];
    }
  }

  lemma MarkerWasPut(cfg: Config, s: State)
    requires Shape(cfg, s) && Takers(cfg, s) && Fifo(cfg, s) && |s.consumers| > 0 && s.consumers[0].pc.Exited?
    ensures exists i :: 0 <= i < |s.takes| && s.puts[i].EndMarker?
  {
    var taken := TakenBy(s.takes, 0);
    assert TakerOk(s.consumers[0], taken);
    TakenByIsTaken(s.takes, 0, |taken| - 1);
    var i :| 0 <= i < |s.takes| && s.takes[i].msg == taken[|taken| - 1];
    assert s.puts[i].EndMarker?;
  }

  lemma {:induction false} TakenByIsTaken(takes: seq<Taking>, c: nat, j: nat)
    requires j < |TakenBy(takes, c)|
    ensures exists i :: 0 <= i < |takes| && takes[i].msg == TakenBy(takes, c)[j]
  {
    var n := |takes| - 1;
    var before := TakenBy(takes[..n], c);
    if j < |before| {
      TakenByIsTaken(takes[..n], c, j);
      var i :| 0 <= i < n && takes[..n][i].msg == before[j];
      assert takes[i].msg == TakenBy(takes, c)[j];
    } else {
      assert takes[n].msg == TakenBy(takes, c)[j];
    }
  }

  /** The three readings of a record, in order. */
  predicate HasAllTimes(s: State, t0: int, id: nat) {
    && id < |s.begRecs| == |s.endRecs| == |s.readRecs|
    && s.begRecs[id].Some? && s.endRecs[id].Some? && s.readRecs[id].Some?
    && t0 <= s.begRecs[id].value <= s.endRecs[id].value <= s.now
    && s.begRecs[id].value <= s.readRecs[id].value <= s.now
  }

  lemma MessageHasAllTimes(cfg: Config, t0: int, s: State, p: nat, k: nat)
    requires Inv(cfg, t0, s) && s.main.Returned? && s.queue == [] && InPlan(cfg.plans, p, k)
    ensures k < s.producers[p].next && HasAllTimes(s, t0, IdOf(cfg.plans, p, k))
  {
    assert WriteTimes(cfg, t0, s, p, k);
    assert Data(p, k) in s.puts;
    var j :| 0 <= j < |s.puts| && s.puts[j] == Data(p, k);
    assert s.takes[j].msg == Data(p, k);
    assert WasTaken(s, Data(p, k));
    assert !IsHeld(s, Data(p, k));
    assert ReadTime(cfg, s, p, k);
  }

  lemma RunHasAllTimes(cfg: Config, s0: State, evs: seq<Event>)
    requires ValidConfig(cfg) && Init(cfg, s0) && Admissible(cfg, s0, evs)
    requires Exec(cfg, s0, evs).main.Returned?
    ensures var s := Exec(cfg, s0, evs);
      && Shape(cfg, s)
      && (forall id :: 0 <= id < cfg.recordCount ==> HasAllTimes(s, s0.now, id))
      && (forall p: nat, k: nat :: InPlan(cfg.plans, p, k) ==> k < s.producers[p].next)
  {
    ReachableInv(cfg, s0, evs);
    var s := Exec(cfg, s0, evs);
    ReturnedCounts(cfg, s0.now, s);
    forall p: nat, k: nat | InPlan(cfg.plans, p, k) ensures k < s.producers[p].next {
      MessageHasAllTimes(cfg, s0.now, s, p, k);
    }
    forall id | 0 <= id < cfg.recordCount ensures HasAllTimes(s, s0.now, id) {
      assert Owned(cfg.plans, id);
      var p, k :| InPlan(cfg.plans, p, k) && IdOf(cfg.plans, p, k) == id;
      MessageHasAllTimes(cfg, s0.now, s, p, k);
    }
  }

  /**
   When run returns, every record has its three clock readings, none before the start; no message ends its
   write or is read before its write began; and each reading is the clock just after the step that took it.
   */
  lemma RunRecordsAllTimes(cfg: Config, s0: State, evs: seq<Event>)
    requires ValidConfig(cfg) && Init(cfg, s0) && Admissible(cfg, s0, evs)
    requires Exec(cfg, s0, evs).main.Returned?
    ensures var s := Exec(cfg, s0, evs);
      && |s.begRecs| == |s.endRecs| == |s.readRecs| == cfg.recordCount
      && forall id :: 0 <= id < cfg.recordCount ==>
           && s.begRecs[id].Some? && s.endRecs[id].Some? && s.readRecs[id].Some?
           && s0.now <= s.begRecs[id].value <= s.endRecs[id].value <= s.now
           && s.begRecs[id].value <= s.readRecs[id].value <= s.now
    ensures AllClocked(cfg, s0, evs)
  {
    RunHasAllTimes(cfg, s0, evs);
    var s := Exec(cfg, s0, evs);
    forall id | 0 <= id < cfg.recordCount
      ensures s.begRecs[id].Some? && s.endRecs[id].Some? && s.readRecs[id].Some?
      ensures s0.now <= s.begRecs[id].value <= s.endRecs[id].value <= s.now
      ensures s.begRecs[id].value <= s.readRecs[id].value <= s.now
    {
      assert HasAllTimes(s, s0.now, id);
    }
    forall p: nat, k: nat | InPlan(cfg.plans, p, k) ensures IsClocked(cfg, s0, evs, p, k) {
      assert HasAllTimes(s, s0.now, IdOf(cfg.plans, p, k));
      WrittenAndReadIsClocked(cfg, s0, evs, p, k);
    }
  }

  // ----- Progress

  /** Some consumer can take or record whenever the queue holds something and not all have left. */
  lemma SomeConsumerActs(cfg: Config, t0: int, s: State) returns (e: Event)
    requires Inv(cfg, t0, s) && s.queue != []
    requires forall c :: 0 <= c < |s.consumers| ==> !s.consumers[c].pc.Unborn?
    requires SumBy(s.consumers, HasExited) < |s.consumers|
    ensures Enabled(cfg, s, e)
  {
    if forall c :: 0 <= c < |s.consumers| ==> s.consumers[c].pc.Exited? {
      SumByBounds(s.consumers, HasExited, 1, 1);
    }
    var c: nat :| c < |s.consumers| && !s.consumers[c].pc.Exited?;
    e := ConsumerActs(cfg, t0, s, c);
  }

  lemma ConsumerActs(cfg: Config, t0: int, s: State, c: nat) returns (e: Event)
    requires Inv(cfg, t0, s) && c < |s.consumers|
    requires s.consumers[c].pc.Holding? || (s.consumers[c].pc.Waiting? && s.queue != [])
    ensures Enabled(cfg, s, e)
  {
    if s.consumers[c].pc.Holding? {
      var m := s.consumers[c].pc.msg;
      assert TakerOk(s.consumers[c], TakenBy(s.takes, c));
      assert WasTaken(s, m);
      var j :| 0 <= j < |s.takes| && s.takes[j].msg == m;
      assert s.puts[j] == m;
      assert InPlan(cfg.plans, m.p, m.k);
      e := Record(c, 0);
    } else {
      e := TakeMessage(c);
    }
  }

  /** The harness never deadlocks: until run returns, some thread can make a step. */
  lemma NeverStuck(cfg: Config, t0: int, s: State) returns (e: Event)
    requires Inv(cfg, t0, s) && !s.main.Returned?
    ensures Enabled(cfg, s, e)
  {
    SumByNonNegative(s.queue, IsMarker);
    match s.main {
      case StartConsumers(_) => e := MainStep;
      case StartProducers(_) => e := MainStep;
      case JoinProducers(i) =>
        if i == |s.producers| || s.producers[i].pc.Ended? {
          e := MainStep;
        } else {
          match s.producers[i].pc {
            case Ready =>
              e := if InPlan(cfg.plans, i, s.producers[i].next) then BeginWrite(i, 0) else EndProducer(i);
            case Timed(_) =>
              if |s.queue| < cfg.capacity { e := PutMessage(i); } else { e := SomeConsumerActs(cfg, t0, s); }
            case Put(_) =>
              assert InPlan(cfg.plans, i, s.producers[i].next);
              e := EndWrite(i, 0);
          }
        }
      case Completing(i) =>
        if i == |s.consumers| || |s.queue| < cfg.capacity { e := MainStep; }
        else { e := SomeConsumerActs(cfg, t0, s); }
      case JoinConsumers(i) =>
        if i == |s.consumers| || s.consumers[i].pc.Exited? {
          e := MainStep;
        } else {
          if s.queue == [] && s.consumers[i].pc.Waiting? {
            SumByReachesTop(s.consumers, HasExited, 1);
          }
          e := ConsumerActs(cfg, t0, s, i);
        }
    }
  }

  /** Steps the main thread has still to make. */
  function MainLeft(cfg: Config, m: MainPc): int {
    var p, c := |cfg.plans|, cfg.consumers;
    match m
    case StartConsumers(i) => (c + 1 - i) + (p + 1) + (p + 1) + (c + 1) + (c + 1)
    case StartProducers(i) => (p + 1 - i) + (p + 1) + (c + 1) + (c + 1)
    case JoinProducers(i) => (p + 1 - i) + (c + 1) + (c + 1)
    case Completing(i) => (c + 1 - i) + (c + 1)
    case JoinConsumers(i) => c + 1 - i
    case Returned(_) => 0
  }

  /** Steps a producer has already made. */
  function ProducerDone(p: Producer): int {
    3 * p.next + match p.pc case Timed(_) => 1 case Put(_) => 2 case Ended => 1 case _ => 0
  }

  /** Steps all threads have still to make: three per message and one end for the producers, two per
      message and one end for the consumers. */
  function Measure(cfg: Config, s: State): int {
    MainLeft(cfg, s.main)
    + 3 * cfg.recordCount + |cfg.plans| - SumBy(s.producers, ProducerDone)
    + 2 * cfg.recordCount + cfg.consumers - |s.takes| - SumBy(s.consumers, TotalRead)
  }

  lemma MainStepMeasure(cfg: Config, s: State)
    requires Phase(cfg, s) && Enabled(cfg, s, MainStep)
    ensures Measure(cfg, Apply(cfg, s, MainStep)) == Measure(cfg, s) - 1
  {
    var s' := Apply(cfg, s, MainStep);
    if s.main.StartConsumers? && s.main.i < |s.consumers| {
      SumByUpdate(s.consumers, s.main.i, s'.consumers[s.main.i], TotalRead);
    }
    if s.main.StartProducers? && s.main.i < |s.producers| {
      SumByUpdate(s.producers, s.main.i, s'.producers[s.main.i], ProducerDone);
    }
  }

  /** Every step whatever uses up exactly one unit of the measure. */
  lemma StepMeasure(cfg: Config, s: State, e: Event)
    requires Phase(cfg, s) && Enabled(cfg, s, e)
    ensures Measure(cfg, Apply(cfg, s, e)) == Measure(cfg, s) - 1
  {
    var s' := Apply(cfg, s, e);
    match e {
      case MainStep => MainStepMeasure(cfg, s);
      case BeginWrite(p, _) => SumByUpdate(s.producers, p, s'.producers[p], ProducerDone);
      case PutMessage(p) => SumByUpdate(s.producers, p, s'.producers[p], ProducerDone);
      case EndWrite(p, _) => SumByUpdate(s.producers, p, s'.producers[p], ProducerDone);
      case EndProducer(p) => SumByUpdate(s.producers, p, s'.producers[p], ProducerDone);
      case TakeMessage(c) => SumByUpdate(s.consumers, c, s'.consumers[c], TotalRead);
      case Record(c, _) => SumByUpdate(s.consumers, c, s'.consumers[c], TotalRead);
    }
  }

  lemma {:induction false} RunMeasure(cfg: Config, t0: int, s: State, evs: seq<Event>)
    requires Inv(cfg, t0, s) && Admissible(cfg, s, evs)
    ensures Measure(cfg, Exec(cfg, s, evs)) == Measure(cfg, s) - |evs|
    decreases |evs|
  {
    if evs == [] {
    } else {
      StepMeasure(cfg, s, evs[0]);
      StepKeepsInv(cfg, t0, s, evs[0]);
      RunMeasure(cfg, t0, Apply(cfg, s, evs[0]), evs[1..]);
    }
  }

  lemma {:induction false} ProducerDoneBounds(cfg: Config, s: State, n: nat)
    requires Phase(cfg, s) && n <= |s.producers|
    ensures SumBy(s.producers[..n], ProducerDone) <= 3 * SumBy(cfg.plans[..n], Length) + n
    ensures (forall p :: 0 <= p < n ==> s.producers[p].pc.Ended?) ==>
      SumBy(s.producers[..n], ProducerDone) == 3 * SumBy(cfg.plans[..n], Length) + n
  {
    if n == 0 {
    } else {
      ProducerDoneBounds(cfg, s, n - 1);
      assert s.producers[..n] == s.producers[..n - 1] + [s.producers[n - 1]];
      assert cfg.plans[..n] == cfg.plans[..n - 1] + [cfg.plans[n - 1]];
      SumByAppend(s.producers[..n - 1], s.producers[n - 1], ProducerDone);
      SumByAppend(cfg.plans[..n - 1], cfg.plans[n - 1], Length);
    }
  }

  lemma {:induction false} ReadsAtMostHeld(cs: seq<Consumer>)
    ensures SumBy(cs, TotalRead) <= SumBy(cs, ReadOrHeld)
  {
    if cs == [] {
    } else {
      ReadsAtMostHeld(cs[1..]);
    }
  }

  lemma {:induction false} SentAtMostPlanned(cfg: Config, s: State, n: nat)
    requires Phase(cfg, s) && n <= |s.producers|
    ensures SumBy(s.producers[..n], Sent) <= SumBy(cfg.plans[..n], Length)
  {
    if n == 0 {
    } else {
      SentAtMostPlanned(cfg, s, n - 1);
      assert s.producers[..n] == s.producers[..n - 1] + [s.producers[n - 1]];
      assert cfg.plans[..n] == cfg.plans[..n - 1] + [cfg.plans[n - 1]];
      SumByAppend(s.producers[..n - 1], s.producers[n - 1], Sent);
      SumByAppend(cfg.plans[..n - 1], cfg.plans[n - 1], Length);
    }
  }

  lemma ProducersPart(cfg: Config, s: State)
    requires Tiles(cfg.plans, cfg.recordCount) && Phase(cfg, s)
    ensures SumBy(s.producers, ProducerDone) <= 3 * cfg.recordCount + |cfg.plans|
    ensures s.main.Returned? ==> SumBy(s.producers, ProducerDone) == 3 * cfg.recordCount + |cfg.plans|
  {
    assert s.producers[..|s.producers|] == s.producers && cfg.plans[..|s.producers|] == cfg.plans;
    ProducerDoneBounds(cfg, s, |s.producers|);
  }

  lemma ConsumersPart(cfg: Config, s: State)
    requires Tiles(cfg.plans, cfg.recordCount) && Phase(cfg, s) && Counts(cfg, s)
    ensures |s.takes| + SumBy(s.consumers, TotalRead) <= 2 * cfg.recordCount + MarkersPut(cfg, s.main)
  {
    assert s.producers[..|s.producers|] == s.producers && cfg.plans[..|s.producers|] == cfg.plans;
    SentAtMostPlanned(cfg, s, |s.producers|);
    ReadsAtMostHeld(s.consumers);
    SumByNonNegative(s.queue, IsMarker);
    SumByNonNegative(s.queue, IsData);
  }

  lemma MeasureOfReturned(cfg: Config, t0: int, s: State)
    requires Inv(cfg, t0, s)
    ensures Measure(cfg, s) >= 0
    ensures Measure(cfg, s) == 0 <==> s.main.Returned?
  {
    ProducersPart(cfg, s);
    ConsumersPart(cfg, s);
    if s.main.Returned? {
      ReturnedCounts(cfg, t0, s);
    }
  }

  /** The length of every complete run. */
  function RunLength(cfg: Config): int {
    5 * cfg.recordCount + 3 * |cfg.plans| + 4 * cfg.consumers + 5
  }

  /**
   Every run is finite, and all complete runs are equally long: a run has at most RunLength steps,
   and it has that many exactly when run has returned.
   */
  lemma AllRunsEquallyLong(cfg: Config, s0: State, evs: seq<Event>)
    requires ValidConfig(cfg) && Init(cfg, s0) && Admissible(cfg, s0, evs)
    ensures |evs| <= RunLength(cfg)
    ensures |evs| == RunLength(cfg) <==> Exec(cfg, s0, evs).main.Returned?
  {
    InitHasInv(cfg, s0);
    RunMeasure(cfg, s0.now, s0, evs);
    ReachableInv(cfg, s0, evs);
    MeasureOfReturned(cfg, s0.now, Exec(cfg, s0, evs));
    InitialMeasure(cfg, s0);
  }

  lemma InitialMeasure(cfg: Config, s0: State)
    requires Init(cfg, s0)
    ensures Measure(cfg, s0) == RunLength(cfg)
  {
    SumByBounds(s0.producers, ProducerDone, 0, 0);
    SumByBounds(s0.consumers, TotalRead, 0, 0);
  }

  /** Every run that has not returned can be continued, so every maximal run returns. */
  lemma MaximalRunsReturn(cfg: Config, s0: State, evs: seq<Event>)
    requires ValidConfig(cfg) && Init(cfg, s0) && Admissible(cfg, s0, evs)
    ensures (forall e :: !Enabled(cfg, Exec(cfg, s0, evs), e)) <==> Exec(cfg, s0, evs).main.Returned?
  {
    ReachableInv(cfg, s0, evs);
    var s := Exec(cfg, s0, evs);
    if s.main.Returned? {
      MeasureOfReturned(cfg, s0.now, s);
      forall e ensures !Enabled(cfg, s, e) {
        if Enabled(cfg, s, e) {
          StepMeasure(cfg, s, e);
          StepKeepsInv(cfg, s0.now, s, e);
          MeasureOfReturned(cfg, s0.now, Apply(cfg, s, e));
        }
      }
    } else {
      var e := NeverStuck(cfg, s0.now, s);
    }
  }
}
