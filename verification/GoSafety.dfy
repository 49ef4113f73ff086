/** Every step of the Go harness keeps its invariant. */
module GoSafety {
  import opened Sequences
  import opened WorkSlices
  import opened GoHarness

  lemma ReadyAtMostAll(cfg: Config, s: State)
    requires Shape(cfg, s) && Ready(cfg, s)
    ensures s.consumerReady <= cfg.consumers
    ensures s.consumerReady == cfg.consumers ==> forall c :: 0 <= c < |s.consumers| ==> !s.consumers[c].Fresh?
  {
    SumByNonNegative(s.consumers, IsFresh);
    forall c | 0 <= c < |s.consumers| && s.consumers[c].Fresh? ensures s.consumerReady < cfg.consumers {
      SumByAtLeast(s.consumers, IsFresh, c);
    }
  }

  lemma AddReadyKeepsReady(cfg: Config, s: State, c: nat)
    requires Shape(cfg, s) && Ready(cfg, s) && Enabled(cfg, s, AddReady(c))
    ensures Ready(cfg, Apply(cfg, s, AddReady(c)))
  {
    var s' := Apply(cfg, s, AddReady(c));
    ReadyAtMostAll(cfg, s);
    SumByUpdate(s.consumers, c, s'.consumers[c], IsFresh);
  }

  /** A consumer that has its value moves on. */
  lemma MoveKeepsReady(cfg: Config, s: State, s': State, c: nat)
    requires Shape(cfg, s) && Shape(cfg, s') && Ready(cfg, s) && s'.consumerReady == s.consumerReady
    requires c < |s.consumers| && !s.consumers[c].Fresh?
    requires !s'.consumers[c].Fresh? && !s'.consumers[c].SendReady? && s'.consumers[c].v == s.consumers[c].v
    requires s'.consumers == s.consumers[c := s'.consumers[c]]
    requires !s.main.ReadyLoop? ==> !s'.main.ReadyLoop?
    requires s.main.ReadyLoop? ==> s'.consumers[c].Receiving? && s'.consumers[c].num == 0
    requires s.main.ReadyLoop? ==> (s'.main.ReadyLoop? <==> s.consumers[c].v != cfg.consumers)
    ensures Ready(cfg, s')
  {
    ReadyAtMostAll(cfg, s);
    SumByUpdate(s.consumers, c, s'.consumers[c], IsFresh);
    if !s.main.ReadyLoop? {
      var b :| HasValue(s, b, cfg.consumers) && !s.consumers[b].SendReady?;
      assert HasValue(s', b, cfg.consumers) && !s'.consumers[b].SendReady?;
    } else if !s'.main.ReadyLoop? {
      assert HasValue(s', c, cfg.consumers);
    }
  }

  /** Nothing happens to the consumers. */
  lemma FrameReady(cfg: Config, s: State, s': State)
    requires Shape(cfg, s) && Shape(cfg, s') && Ready(cfg, s)
    requires s'.consumers == s.consumers && s'.consumerReady == s.consumerReady
    requires s'.main.ReadyLoop? <==> s.main.ReadyLoop?
    ensures Ready(cfg, s')
  {
    if !s.main.ReadyLoop? {
      var b :| HasValue(s, b, cfg.consumers) && !s.consumers[b].SendReady?;
      assert HasValue(s', b, cfg.consumers) && !s'.consumers[b].SendReady?;
    }
  }

  lemma StepKeepsReady(cfg: Config, s: State, e: Event)
    requires Shape(cfg, s) && Ready(cfg, s) && Working(cfg, s) && Enabled(cfg, s, e)
    ensures Shape(cfg, Apply(cfg, s, e)) && Ready(cfg, Apply(cfg, s, e))
  {
    var s' := Apply(cfg, s, e);
    match e
    case AddReady(c) => AddReadyKeepsReady(cfg, s, c);
    case Spawn => FrameReady(cfg, s, s');
    case Begin(_, _) => FrameReady(cfg, s, s');
    case EndSend(_, _) => FrameReady(cfg, s, s');
    case SignalProducer(_) => FrameReady(cfg, s, s');
    case SignalReady(c) => MoveKeepsReady(cfg, s, s', c);
    case Deliver(_, c) => MoveKeepsReady(cfg, s, s', c);
    case SendNil(c) => MoveKeepsReady(cfg, s, s', c);
    case Stamp(c, _) => MoveKeepsReady(cfg, s, s', c);
    case Publish(c) => MoveKeepsReady(cfg, s, s', c);
    case SignalConsumer(c) => MoveKeepsReady(cfg, s, s', c);
  }

  /** A producer that has been spawned moves on, and main stays in its phase or goes on to send nils. */
  lemma ProducerKeepsWorking(cfg: Config, s: State, e: Event, p: nat)
    requires ValidConfig(cfg) && Shape(cfg, s) && Working(cfg, s) && Enabled(cfg, s, e)
    requires e.Begin? || e.Deliver? || e.EndSend? || e.SignalProducer?
    requires p == e.p
    ensures Working(cfg, Apply(cfg, s, e))
  {
    var s' := Apply(cfg, s, e);
    assert forall q :: 0 <= q < |s.producers| && q != p ==> s'.producers[q] == s.producers[q];
    assert !s.producers[p].Unspawned? && !s'.producers[p].Unspawned?;
  }

  lemma SpawnKeepsWorking(cfg: Config, s: State)
    requires ValidConfig(cfg) && Shape(cfg, s) && Working(cfg, s) && Enabled(cfg, s, Spawn)
    ensures Working(cfg, Apply(cfg, s, Spawn))
  {
    var s' := Apply(cfg, s, Spawn);
    assert forall q :: 0 <= q < |s.producers| && q != s.main.i ==> s'.producers[q] == s.producers[q];
  }

  /** Nothing happens to the producers, and main does not move back. */
  lemma ConsumerKeepsWorking(cfg: Config, s: State, e: Event)
    requires ValidConfig(cfg) && Shape(cfg, s) && Working(cfg, s) && Enabled(cfg, s, e)
    requires e.AddReady? || e.SignalReady? || e.SendNil? || e.Stamp? || e.Publish? || e.SignalConsumer?
    ensures Working(cfg, Apply(cfg, s, e))
  {
    var s' := Apply(cfg, s, e);
    assert s'.producers == s.producers;
  }

  lemma StepKeepsWorking(cfg: Config, s: State, e: Event)
    requires ValidConfig(cfg) && Shape(cfg, s) && Working(cfg, s) && Enabled(cfg, s, e)
    ensures Shape(cfg, Apply(cfg, s, e)) && Working(cfg, Apply(cfg, s, e))
  {
    match e
    case Spawn => SpawnKeepsWorking(cfg, s);
    case Begin(p, _) => ProducerKeepsWorking(cfg, s, e, p);
    case Deliver(p, _) => ProducerKeepsWorking(cfg, s, e, p);
    case EndSend(p, _) => ProducerKeepsWorking(cfg, s, e, p);
    case SignalProducer(p) => ProducerKeepsWorking(cfg, s, e, p);
    case _ => ConsumerKeepsWorking(cfg, s, e);
  }

  /** Credit, sent blocks and published numbers after one consumer has changed. */
  lemma CreditUpdate(s: State, c: nat, w: Consumer)
    requires c < |s.consumers|
    ensures SumBy(s.consumers[c := w], Credit) == SumBy(s.consumers, Credit) - Credit(s.consumers[c]) + Credit(w)
  {
    SumByUpdate(s.consumers, c, w, Credit);
  }

  lemma SentUpdate(s: State, p: nat, w: Producer)
    requires p < |s.producers|
    ensures SumBy(s.producers[p := w], SentOf) == SumBy(s.producers, SentOf) - SentOf(s.producers[p]) + SentOf(w)
  {
    SumByUpdate(s.producers, p, w, SentOf);
  }

  /** A step that keeps what the consumers have published. */
  lemma MoveKeepsConserved(cfg: Config, s: State, s': State)
    requires Shape(cfg, s) && Shape(cfg, s') && Conserved(cfg, s)
    requires s'.readNum == s.readNum && s'.consumerReady >= s.consumerReady
    requires forall c :: 0 <= c < |s.consumers| && Unpublished(s'.consumers[c]) ==>
      || (Unpublished(s.consumers[c]) && s.consumers[c].v == s'.consumers[c].v)
      || s'.consumers[c].v > s.consumerReady
    requires SumBy(s'.consumers, Credit) - SumBy(s.consumers, Credit)
          == SumBy(s'.producers, SentOf) - SumBy(s.producers, SentOf)
    ensures Conserved(cfg, s')
  {
    forall c | 0 <= c < |s'.consumers| && Unpublished(s'.consumers[c])
      ensures NothingPublished(s', s'.consumers[c])
    {
      if Unpublished(s.consumers[c]) { assert NothingPublished(s, s.consumers[c]); }
    }
  }

  lemma StepKeepsConserved(cfg: Config, s: State, e: Event)
    requires Shape(cfg, s) && Ready(cfg, s) && Working(cfg, s) && Conserved(cfg, s) && Enabled(cfg, s, e)
    requires Shape(cfg, Apply(cfg, s, e))
    ensures Conserved(cfg, Apply(cfg, s, e))
  {
    match e {
      case AddReady(c) => ConsumerKeepsConserved(cfg, s, e, c);
      case SignalReady(c) => ConsumerKeepsConserved(cfg, s, e, c);
      case SendNil(c) => ConsumerKeepsConserved(cfg, s, e, c);
      case Stamp(c, _) => ConsumerKeepsConserved(cfg, s, e, c);
      case SignalConsumer(c) => ConsumerKeepsConserved(cfg, s, e, c);
      case Publish(c) => PublishKeepsConserved(cfg, s, c);
      case Deliver(p, c) => DeliverKeepsConserved(cfg, s, p, c);
      case Spawn => SpawnedNothing(cfg, s); ProducerKeepsConserved(cfg, s, e, s.main.i);
      case Begin(p, _) => ProducerKeepsConserved(cfg, s, e, p);
      case EndSend(p, _) => ProducerKeepsConserved(cfg, s, e, p);
      case SignalProducer(p) => ProducerKeepsConserved(cfg, s, e, p);
    }
  }

  lemma ConsumerKeepsConserved(cfg: Config, s: State, e: Event, c: nat)
    requires Shape(cfg, s) && Ready(cfg, s) && Conserved(cfg, s) && Enabled(cfg, s, e)
    requires e == AddReady(c) || e == SignalReady(c) || e == SendNil(c) || (e.Stamp? && e.c == c)
          || e == SignalConsumer(c)
    ensures Conserved(cfg, Apply(cfg, s, e))
  {
    var s' := Apply(cfg, s, e);
    CreditUpdate(s, c, s'.consumers[c]);
    MoveKeepsConserved(cfg, s, s');
  }

  lemma DeliverKeepsConserved(cfg: Config, s: State, p: nat, c: nat)
    requires Shape(cfg, s) && Conserved(cfg, s) && Enabled(cfg, s, Deliver(p, c))
    ensures Conserved(cfg, Apply(cfg, s, Deliver(p, c)))
  {
    var s' := Apply(cfg, s, Deliver(p, c));
    SentUpdate(s, p, s'.producers[p]);
    CreditUpdate(s, c, s'.consumers[c]);
    MoveKeepsConserved(cfg, s, s');
  }

  lemma ProducerKeepsConserved(cfg: Config, s: State, e: Event, p: nat)
    requires Shape(cfg, s) && Conserved(cfg, s) && Enabled(cfg, s, e)
    requires e.Spawn? || e.Begin? || e.EndSend? || e.SignalProducer?
    requires p == (if e.Spawn? then s.main.i else e.p)
    requires e.Spawn? ==> SentOf(s.producers[p]) == 0
    ensures Conserved(cfg, Apply(cfg, s, e))
  {
    var s' := Apply(cfg, s, e);
    SentUpdate(s, p, s'.producers[p]);
    MoveKeepsConserved(cfg, s, s');
  }

  lemma SpawnedNothing(cfg: Config, s: State)
    requires Shape(cfg, s) && Working(cfg, s) && Enabled(cfg, s, Spawn)
    ensures SentOf(s.producers[s.main.i]) == 0
  {
  }

  lemma PublishKeepsConserved(cfg: Config, s: State, c: nat)
    requires Shape(cfg, s) && Ready(cfg, s) && Conserved(cfg, s) && Enabled(cfg, s, Publish(c))
    ensures Conserved(cfg, Apply(cfg, s, Publish(c)))
  {
    var s' := Apply(cfg, s, Publish(c));
    var w := s.consumers[c];
    CreditUpdate(s, c, s'.consumers[c]);
    assert NothingPublished(s, w);
    SumByUpdate(s.readNum, w.v - 1, w.num, Count);
    forall b | 0 <= b < |s'.consumers| && Unpublished(s'.consumers[b])
      ensures NothingPublished(s', s'.consumers[b])
    {
      assert b != c && NothingPublished(s, s.consumers[b]);
      assert s.consumers[b].v != w.v;
    }
  }

  // ----- Timestamps

  /** The timestamps of blocks other than (p, k) do not move when only those of (p, k) are written. */
  lemma OtherSlots(cfg: Config, p: nat, k: nat, q: nat, j: nat)
    requires ValidConfig(cfg) && InPlan(cfg.plans, p, k) && InPlan(cfg.plans, q, j) && (p != q || k != j)
    ensures IdOf(cfg.plans, p, k) != IdOf(cfg.plans, q, j)
  {
  }

  lemma SameHolders(s: State, s': State)
    requires forall p: nat, k: nat, c :: HeldBy(s, p, k, c) ==> HeldBy(s', p, k, c)
    ensures forall p: nat, k: nat :: IsHeld(s, p, k) ==> IsHeld(s', p, k)
  {
    forall p: nat, k: nat | IsHeld(s, p, k) ensures IsHeld(s', p, k) {
      var c :| HeldBy(s, p, k, c);
      assert HeldBy(s', p, k, c);
    }
  }

  /** The timestamps and whoever works on a block do not change. */
  lemma FrameTimes(cfg: Config, s: State, s': State)
    requires ValidConfig(cfg) && Shape(cfg, s) && Shape(cfg, s') && Times(cfg, s)
    requires s'.ts0 == s.ts0 && s'.ts1 == s.ts1 && s'.ts2 == s.ts2 && s'.now == s.now
    requires forall p :: 0 <= p < |s.producers| ==>
      || s'.producers[p] == s.producers[p]
      || (SentOf(s'.producers[p]) == SentOf(s.producers[p])
          && !s.producers[p].Stamped? && !s'.producers[p].Stamped?
          && !s.producers[p].Sent? && !s'.producers[p].Sent?)
    requires forall c :: 0 <= c < |s.consumers| && (s.consumers[c].Got? || s'.consumers[c].Got?) ==>
      s'.consumers[c] == s.consumers[c]
    ensures Times(cfg, s')
  {
    SameHolders(s, s');
    forall p: nat, k: nat | InPlan(cfg.plans, p, k) ensures BlockTimes(cfg, s', p, k) {
      assert BlockTimes(cfg, s, p, k);
    }
  }

  /** Steps that write no timestamp and hand over no block. */
  lemma QuietKeepsTimes(cfg: Config, s: State, e: Event)
    requires Inv(cfg, s) && Enabled(cfg, s, e) && Shape(cfg, Apply(cfg, s, e))
    requires !e.Begin? && !e.Deliver? && !e.EndSend? && !e.Stamp?
    ensures Times(cfg, Apply(cfg, s, e))
  {
    FrameTimes(cfg, s, Apply(cfg, s, e));
  }

  lemma BeginKeepsTimes(cfg: Config, s: State, p: nat, d: nat)
    requires Inv(cfg, s) && Enabled(cfg, s, Begin(p, d))
    ensures Times(cfg, Apply(cfg, s, Begin(p, d)))
  {
    var s' := Apply(cfg, s, Begin(p, d));
    SameHolders(s, s');
    forall q: nat, k: nat | InPlan(cfg.plans, q, k) ensures BlockTimes(cfg, s', q, k) {
      assert BlockTimes(cfg, s, q, k);
      if q != p || k != s.producers[p].k { OtherSlots(cfg, p, s.producers[p].k, q, k); }
    }
  }

  lemma DeliverKeepsTimes(cfg: Config, s: State, p: nat, c: nat)
    requires Inv(cfg, s) && Enabled(cfg, s, Deliver(p, c))
    ensures Times(cfg, Apply(cfg, s, Deliver(p, c)))
  {
    var s' := Apply(cfg, s, Deliver(p, c));
    SameHolders(s, s');
    assert HeldBy(s', p, s.producers[p].k, c);
    forall q: nat, k: nat | InPlan(cfg.plans, q, k) ensures BlockTimes(cfg, s', q, k) {
      assert BlockTimes(cfg, s, q, k);
    }
  }

  lemma EndSendKeepsTimes(cfg: Config, s: State, p: nat, d: nat)
    requires Inv(cfg, s) && Enabled(cfg, s, EndSend(p, d))
    ensures Times(cfg, Apply(cfg, s, EndSend(p, d)))
  {
    var s' := Apply(cfg, s, EndSend(p, d));
    SameHolders(s, s');
    forall q: nat, k: nat | InPlan(cfg.plans, q, k) ensures BlockTimes(cfg, s', q, k) {
      assert BlockTimes(cfg, s, q, k);
      if q != p || k != s.producers[p].k { OtherSlots(cfg, p, s.producers[p].k, q, k); }
    }
  }

  lemma StampKeepsTimes(cfg: Config, s: State, c: nat, d: nat)
    requires Inv(cfg, s) && Enabled(cfg, s, Stamp(c, d))
    ensures Times(cfg, Apply(cfg, s, Stamp(c, d)))
  {
    var s' := Apply(cfg, s, Stamp(c, d));
    var w := s.consumers[c];
    forall q: nat, k: nat | InPlan(cfg.plans, q, k) ensures BlockTimes(cfg, s', q, k) {
      assert BlockTimes(cfg, s, q, k);
      if q != w.p || k != w.k {
        OtherSlots(cfg, w.p, w.k, q, k);
        if IsHeld(s, q, k) {
          var b :| HeldBy(s, q, k, b);
          assert HeldBy(s', q, k, b);
        }
      }
    }
  }

  lemma StepKeepsInv(cfg: Config, s: State, e: Event)
    requires Inv(cfg, s) && Enabled(cfg, s, e)
    ensures Inv(cfg, Apply(cfg, s, e))
  {
    StepKeepsReady(cfg, s, e);
    StepKeepsWorking(cfg, s, e);
    StepKeepsConserved(cfg, s, e);
    match e
    case Begin(p, d) => BeginKeepsTimes(cfg, s, p, d);
    case Deliver(p, c) => DeliverKeepsTimes(cfg, s, p, c);
    case EndSend(p, d) => EndSendKeepsTimes(cfg, s, p, d);
    case Stamp(c, d) => StampKeepsTimes(cfg, s, c, d);
    case _ => QuietKeepsTimes(cfg, s, e);
  }

  lemma {:induction false} RunKeepsInv(cfg: Config, s: State, evs: seq<Event>)
    requires Inv(cfg, s) && Admissible(cfg, s, evs)
    ensures Inv(cfg, Exec(cfg, s, evs))
    decreases |evs|
  {
    if evs == [] {
    } else {
      StepKeepsInv(cfg, s, evs[0]);
      RunKeepsInv(cfg, Apply(cfg, s, evs[0]), evs[1..]);
    }
  }

  lemma InitHasInv(cfg: Config, start: int)
    requires ValidConfig(cfg)
    ensures Inv(cfg, InitialState(cfg, start))
  {
    var s := InitialState(cfg, start);
    SumByBounds(s.consumers, IsFresh, 1, 1);
    SumByBounds(s.consumers, Credit, 0, 0);
    SumByBounds(s.readNum, Count, 0, 0);
    SumByBounds(s.producers, SentOf, 0, 0);
  }

  // ----- What each consumer counts

  /** The blocks that consumer c has received, wherever it keeps the count. */
  function CountOf(s: State, c: nat): int
    requires c < |s.consumers|
  {
    match s.consumers[c]
    case Receiving(_, num) => num
    case Got(_, num, _, _) => num + 1
    case Leaving(_, num) => num
    case SendDone(v) => if 1 <= v <= |s.readNum| then s.readNum[v - 1] else 0
    case Gone(v) => if 1 <= v <= |s.readNum| then s.readNum[v - 1] else 0
    case _ => 0
  }

  /** The blocks that a schedule hands over to consumer c. */
  function Deliveries(evs: seq<Event>, c: nat): nat {
    if evs == [] then 0
    else (if evs[0].Deliver? && evs[0].c == c then 1 else 0) + Deliveries(evs[1..], c)
  }

  lemma StepCounts(cfg: Config, s: State, e: Event, c: nat)
    requires Shape(cfg, s) && Ready(cfg, s) && Enabled(cfg, s, e) && c < |s.consumers|
    requires Shape(cfg, Apply(cfg, s, e))
    ensures CountOf(Apply(cfg, s, e), c) == CountOf(s, c) + if e.Deliver? && e.c == c then 1 else 0
  {
    if e.Publish? && e.c != c && !s.consumers[c].Fresh? { assert s.consumers[c].v != s.consumers[e.c].v; }
  }

  lemma {:induction false} RunCounts(cfg: Config, s: State, evs: seq<Event>, c: nat)
    requires Inv(cfg, s) && Admissible(cfg, s, evs) && c < |s.consumers|
    ensures c < |Exec(cfg, s, evs).consumers|
    ensures CountOf(Exec(cfg, s, evs), c) == CountOf(s, c) + Deliveries(evs, c)
    decreases |evs|
  {
    if evs == [] {
    } else {
      StepKeepsInv(cfg, s, evs[0]);
      StepCounts(cfg, s, evs[0], c);
      RunCounts(cfg, Apply(cfg, s, evs[0]), evs[1..], c);
    }
  }

  /** What a consumer has written to consumer_read_num is the number of blocks handed over to it. */
  lemma PublishedCount(cfg: Config, start: int, evs: seq<Event>, c: nat)
    requires ValidConfig(cfg) && Admissible(cfg, InitialState(cfg, start), evs) && c < cfg.consumers
    ensures var s := Exec(cfg, InitialState(cfg, start), evs);
      && |s.consumers| == |s.readNum| == cfg.consumers
      && (s.consumers[c].SendDone? || s.consumers[c].Gone? ==>
            1 <= s.consumers[c].v <= cfg.consumers && s.readNum[s.consumers[c].v - 1] == Deliveries(evs, c))
  {
    InitHasInv(cfg, start);
    RunKeepsInv(cfg, InitialState(cfg, start), evs);
    ReadyAtMostAll(cfg, Exec(cfg, InitialState(cfg, start), evs));
    RunCounts(cfg, InitialState(cfg, start), evs, c);
  }
}
