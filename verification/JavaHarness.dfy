/**
 The Java thread-transfer harness: producers put their messages into one bounded FIFO queue, consumers
 take them, and the main thread joins the producers, puts one end marker per consumer and joins the
 consumers.  A run is any interleaving of the steps of these threads.
 */
module JavaHarness {
  import opened Sequences
  import opened WorkSlices

  /** A message object: the k-th of producer p, or an end marker (id == -1). */
  datatype Message = Data(p: nat, k: nat) | EndMarker

  /** The benchmark's configuration, with the ids of each producer. */
  datatype Config = Config(plans: Plans, consumers: nat, capacity: nat, recordCount: nat)

  ghost predicate ValidConfig(cfg: Config) {
    Tiles(cfg.plans, cfg.recordCount) && cfg.consumers >= 1 && cfg.capacity >= 1
  }

  /** The id field of a message. */
  function Id(cfg: Config, m: Message): int {
    if m.Data? && InPlan(cfg.plans, m.p, m.k) then IdOf(cfg.plans, m.p, m.k) else -1
  }

  /** Ready: between two messages.  Timed: begin time read.  Put: message in the queue. */
  datatype ProducerPc = NotStarted | Ready | Timed(beg: int) | Put(beg: int) | Ended

  datatype Producer = Producer(pc: ProducerPc, next: nat)

  datatype ConsumerPc = Unborn | Waiting | Holding(msg: Message) | Exited

  datatype Consumer = Consumer(pc: ConsumerPc, totalRead: nat)

  datatype MainPc =
    | StartConsumers(i: nat) | StartProducers(i: nat) | JoinProducers(i: nat)
    | Completing(i: nat) | JoinConsumers(i: nat) | Returned(total: int)

  /** History of the queue: message msg was taken by consumer c. */
  datatype Taking = Taking(c: nat, msg: Message)

  datatype State = State(
    main: MainPc, producers: seq<Producer>, consumers: seq<Consumer>, queue: seq<Message>, now: int,
    begRecs: seq<Option<int>>, endRecs: seq<Option<int>>, readRecs: seq<Option<int>>,
    puts: seq<Message>, takes: seq<Taking>)

  /** d is the time that has passed when a step reads the clock. */
  datatype Event =
    | MainStep
    | BeginWrite(p: nat, d: nat) | PutMessage(p: nat) | EndWrite(p: nat, d: nat) | EndProducer(p: nat)
    | TakeMessage(c: nat) | Record(c: nat, d: nat)

  predicate Shape(cfg: Config, s: State) {
    && |s.producers| == |cfg.plans| && |s.consumers| == cfg.consumers
    && |s.begRecs| == |s.endRecs| == |s.readRecs| == cfg.recordCount
  }

  predicate MainEnabled(cfg: Config, s: State) {
    match s.main
    case StartConsumers(i) => i <= |s.consumers|
    case StartProducers(i) => i <= |s.producers|
    case JoinProducers(i) => i == |s.producers| || (i < |s.producers| && s.producers[i].pc.Ended?)
    case Completing(i) => i >= |s.consumers| || |s.queue| < cfg.capacity
    case JoinConsumers(i) => i == |s.consumers| || (i < |s.consumers| && s.consumers[i].pc.Exited?)
    case Returned(_) => false
  }

  /** Slot of the record arrays that a message writes to. */
  predicate HasSlot(cfg: Config, s: State, p: int, k: int) {
    InPlan(cfg.plans, p, k) && 0 <= IdOf(cfg.plans, p, k) < |s.begRecs| == |s.endRecs| == |s.readRecs|
  }

  predicate Enabled(cfg: Config, s: State, e: Event) {
    match e
    case MainStep => MainEnabled(cfg, s)
    case BeginWrite(p, _) =>
      p < |s.producers| && s.producers[p].pc.Ready? && InPlan(cfg.plans, p, s.producers[p].next)
    case PutMessage(p) =>
      p < |s.producers| && s.producers[p].pc.Timed? && |s.queue| < cfg.capacity
    case EndWrite(p, _) =>
      p < |s.producers| && s.producers[p].pc.Put? && HasSlot(cfg, s, p, s.producers[p].next)
    case EndProducer(p) =>
      p < |s.producers| && s.producers[p].pc.Ready? && !InPlan(cfg.plans, p, s.producers[p].next)
    case TakeMessage(c) =>
      c < |s.consumers| && s.consumers[c].pc.Waiting? && |s.queue| > 0
    case Record(c, _) =>
      && c < |s.consumers| && s.consumers[c].pc.Holding? && s.consumers[c].pc.msg.Data?
      && HasSlot(cfg, s, s.consumers[c].pc.msg.p, s.consumers[c].pc.msg.k)
  }

  function TotalRead(c: Consumer): int { c.totalRead }

  function ApplyMain(cfg: Config, s: State): State
    requires MainEnabled(cfg, s)
  {
    match s.main
    case StartConsumers(i) =>
      if i < |s.consumers|
      then s.(main := StartConsumers(i + 1), consumers := s.consumers[i := Consumer(Waiting, 0)])
      else s.(main := StartProducers(0))
    case StartProducers(i) =>
      if i < |s.producers|
      then s.(main := StartProducers(i + 1), producers := s.producers[i := Producer(Ready, 0)])
      else s.(main := JoinProducers(0))
    case JoinProducers(i) =>
      if i < |s.producers| then s.(main := JoinProducers(i + 1)) else s.(main := Completing(0))
    case Completing(i) =>
      if i < |s.consumers|
      then s.(main := Completing(i + 1), queue := s.queue + [EndMarker], puts := s.puts + [EndMarker])
      else s.(main := JoinConsumers(0))
    case JoinConsumers(i) =>
      if i < |s.consumers| then s.(main := JoinConsumers(i + 1))
      else s.(main := Returned(SumBy(s.consumers, TotalRead)))
  }

  function Apply(cfg: Config, s: State, e: Event): State
    requires Enabled(cfg, s, e)
  {
    match e
    case MainStep => ApplyMain(cfg, s)
    case BeginWrite(p, d) =>
      s.(now := s.now + d, producers := s.producers[p := s.producers[p].(pc := Timed(s.now + d))])
    case PutMessage(p) =>
      var m := Data(p, s.producers[p].next);
      s.(queue := s.queue + [m], puts := s.puts + [m],
         producers := s.producers[p := s.producers[p].(pc := Put(s.producers[p].pc.beg))])
    case EndWrite(p, d) =>
      var id := IdOf(cfg.plans, p, s.producers[p].next);
      s.(now := s.now + d,
         begRecs := s.begRecs[id := Some(s.producers[p].pc.beg)],
         endRecs := s.endRecs[id := Some(s.now + d)],
         producers := s.producers[p := Producer(Ready, s.producers[p].next + 1)])
    case EndProducer(p) =>
      s.(producers := s.producers[p := s.producers[p].(pc := Ended)])
    case TakeMessage(c) =>
      var m := s.queue[0];
      s.(queue := s.queue[1..], takes := s.takes + [Taking(c, m)],
         consumers := s.consumers[c := s.consumers[c].(pc := if m.EndMarker? then Exited else Holding(m))])
    case Record(c, d) =>
      var m := s.consumers[c].pc.msg;
      s.(now := s.now + d,
         readRecs := s.readRecs[IdOf(cfg.plans, m.p, m.k) := Some(s.now + d)],
         consumers := s.consumers[c := Consumer(Waiting, s.consumers[c].totalRead + 1)])
  }

  predicate Admissible(cfg: Config, s: State, evs: seq<Event>)
    decreases |evs|
  {
    evs == [] || (Enabled(cfg, s, evs[0]) && Admissible(cfg, Apply(cfg, s, evs[0]), evs[1..]))
  }

  function Exec(cfg: Config, s: State, evs: seq<Event>): State
    requires Admissible(cfg, s, evs)
    decreases |evs|
  {
    if evs == [] then s else Exec(cfg, Apply(cfg, s, evs[0]), evs[1..])
  }

  predicate Init(cfg: Config, s: State) {
    && Shape(cfg, s)
    && s.main == StartConsumers(0)
    && (forall p :: 0 <= p < |s.producers| ==> s.producers[p] == Producer(NotStarted, 0))
    && (forall c :: 0 <= c < |s.consumers| ==> s.consumers[c] == Consumer(Unborn, 0))
    && s.queue == s.puts == [] && s.takes == []
    && (forall i :: 0 <= i < cfg.recordCount ==> s.begRecs[i] == s.endRecs[i] == s.readRecs[i] == None)
  }

  /** The state in which run begins. */
  function InitialState(cfg: Config, start: int): (s: State)
    ensures Init(cfg, s) && s.now == start
  {
    var none := seq(cfg.recordCount, _ => None);
    State(StartConsumers(0), seq(|cfg.plans|, _ => Producer(NotStarted, 0)),
          seq(cfg.consumers, _ => Consumer(Unborn, 0)), [], start, none, none, none, [], [])
  }

  // ----- Invariants

  /** Messages a producer has put into the queue. */
  function Sent(p: Producer): int {
    p.next + if p.pc.Put? then 1 else 0
  }

  function MarkersPut(cfg: Config, m: MainPc): int {
    match m
    case Completing(i) => i
    case JoinConsumers(_) => cfg.consumers
    case Returned(_) => cfg.consumers
    case _ => 0
  }

  predicate ProducersJoined(m: MainPc) {
    m.Completing? || m.JoinConsumers? || m.Returned?
  }

  /** Where the threads can be in each phase of the main thread. */
  ghost predicate Phase(cfg: Config, s: State) {
    && Shape(cfg, s)
    && (forall p :: 0 <= p < |s.producers| ==>
          var pr := s.producers[p];
          && pr.next <= |cfg.plans[p]|
          && (pr.pc.NotStarted? ==> pr.next == 0)
          && (pr.pc.Timed? || pr.pc.Put? ==> pr.next < |cfg.plans[p]|)
          && (pr.pc.Ended? ==> pr.next == |cfg.plans[p]|))
    && (forall c :: 0 <= c < |s.consumers| && s.consumers[c].pc.Unborn? ==> s.consumers[c].totalRead == 0)
    && match s.main
       case StartConsumers(i) =>
         && i <= |s.consumers|
         && (forall c :: 0 <= c < |s.consumers| ==> (s.consumers[c].pc.Unborn? <==> i <= c))
         && (forall p :: 0 <= p < |s.producers| ==> s.producers[p].pc.NotStarted?)
       case StartProducers(i) =>
         && i <= |s.producers|
         && (forall c :: 0 <= c < |s.consumers| ==> !s.consumers[c].pc.Unborn?)
         && (forall p :: 0 <= p < |s.producers| ==> (s.producers[p].pc.NotStarted? <==> i <= p))
       case JoinProducers(i) =>
         && i <= |s.producers|
         && (forall c :: 0 <= c < |s.consumers| ==> !s.consumers[c].pc.Unborn?)
         && (forall p :: 0 <= p < |s.producers| ==> !s.producers[p].pc.NotStarted?)
         && (forall p :: 0 <= p < i ==> s.producers[p].pc.Ended?)
       case Completing(i) =>
         && i <= |s.consumers|
         && (forall c :: 0 <= c < |s.consumers| ==> !s.consumers[c].pc.Unborn?)
         && (forall p :: 0 <= p < |s.producers| ==> s.producers[p].pc.Ended?)
       case JoinConsumers(i) =>
         && i <= |s.consumers|
         && (forall c :: 0 <= c < |s.consumers| ==> !s.consumers[c].pc.Unborn?)
         && (forall p :: 0 <= p < |s.producers| ==> s.producers[p].pc.Ended?)
         && (forall c :: 0 <= c < i ==> s.consumers[c].pc.Exited?)
       case Returned(total) =>
         && (forall p :: 0 <= p < |s.producers| ==> s.producers[p].pc.Ended?)
         && (forall c :: 0 <= c < |s.consumers| ==> s.consumers[c].pc.Exited?)
         && total == SumBy(s.consumers, TotalRead)
  }

  /** The queue is what has been put and not yet taken, in order. */
  ghost predicate Fifo(cfg: Config, s: State) {
    && |s.puts| == |s.takes| + |s.queue|
    && |s.queue| <= cfg.capacity
    && (forall j :: 0 <= j < |s.takes| ==> s.takes[j].msg == s.puts[j])
    && (forall j :: 0 <= j < |s.queue| ==> s.queue[j] == s.puts[|s.takes| + j])
  }

  predicate SameProducer(m: Message, n: Message) {
    m.Data? && n.Data? && m.p == n.p
  }

  /** What has been put: of each producer its first messages in order, and markers only after all. */
  ghost predicate PutLog(cfg: Config, s: State)
    requires Shape(cfg, s)
  {
    && (forall j :: 0 <= j < |s.puts| && s.puts[j].Data? ==>
          s.puts[j].p < |s.producers| && s.puts[j].k < Sent(s.producers[s.puts[j].p]))
    && (forall p, k: nat :: 0 <= p < |s.producers| && k < Sent(s.producers[p]) ==> Data(p, k) in s.puts)
    && (forall i, j :: 0 <= i < j < |s.puts| && SameProducer(s.puts[i], s.puts[j]) ==>
          s.puts[i].k < s.puts[j].k)
    && (forall i, j :: 0 <= i < j < |s.puts| && s.puts[i].EndMarker? ==> s.puts[j].EndMarker?)
    && (EndMarker in s.puts ==> ProducersJoined(s.main))
  }

  function IsMarker(m: Message): int { if m.EndMarker? then 1 else 0 }
  function IsData(m: Message): int { if m.Data? then 1 else 0 }
  function MarkerTake(t: Taking): int { IsMarker(t.msg) }
  function DataTake(t: Taking): int { IsData(t.msg) }
  function HasExited(c: Consumer): int { if c.pc.Exited? then 1 else 0 }
  function ReadOrHeld(c: Consumer): int { c.totalRead + if c.pc.Holding? then 1 else 0 }

  ghost predicate Counts(cfg: Config, s: State)
    requires Shape(cfg, s)
  {
    && SumBy(s.takes, MarkerTake) + SumBy(s.queue, IsMarker) == MarkersPut(cfg, s.main)
    && SumBy(s.consumers, HasExited) == SumBy(s.takes, MarkerTake)
    && SumBy(s.takes, DataTake) + SumBy(s.queue, IsData) == SumBy(s.producers, Sent)
    && SumBy(s.consumers, ReadOrHeld) == SumBy(s.takes, DataTake)
    && |s.takes| == SumBy(s.takes, MarkerTake) + SumBy(s.takes, DataTake)
  }

  /** The messages consumer c has taken, in order. */
  function TakenBy(takes: seq<Taking>, c: nat): seq<Message> {
    if takes == [] then []
    else
      var last := takes[|takes| - 1];
      TakenBy(takes[..|takes| - 1], c) + if last.c == c then [last.msg] else []
  }

  /** Each consumer has taken data, then at most one marker, and has counted what it does not hold. */
  ghost predicate Takers(cfg: Config, s: State)
    requires Shape(cfg, s)
  {
    && (forall j :: 0 <= j < |s.takes| ==> s.takes[j].c < |s.consumers|)
    && (forall c: nat :: c < |s.consumers| ==> TakerOk(s.consumers[c], TakenBy(s.takes, c)))
  }

  ghost predicate TakerOk(c: Consumer, taken: seq<Message>) {
    && (forall j :: 0 <= j < |taken| ==> (taken[j].EndMarker? <==> c.pc.Exited? && j == |taken| - 1))
    && (c.pc.Exited? ==> |taken| > 0)
    && c.totalRead == |taken| - (if c.pc.Exited? || c.pc.Holding? then 1 else 0)
    && (c.pc.Holding? ==> c.pc.msg.Data? && |taken| > 0 && taken[|taken| - 1] == c.pc.msg)
    && (c.pc.Unborn? ==> taken == [])
  }

  /** The begin time of message k of a producer that has put it. */
  function BegOf(cfg: Config, s: State, p: nat, k: nat): Option<int>
    requires p < |s.producers| && HasSlot(cfg, s, p, k)
  {
    if k < s.producers[p].next then s.begRecs[IdOf(cfg.plans, p, k)]
    else if k == s.producers[p].next && s.producers[p].pc.Put? then Some(s.producers[p].pc.beg) else None
  }

  ghost predicate HeldBy(s: State, m: Message, c: int) {
    0 <= c < |s.consumers| && s.consumers[c].pc.Holding? && s.consumers[c].pc.msg == m
  }

  ghost predicate IsHeld(s: State, m: Message) {
    exists c :: HeldBy(s, m, c)
  }

  /** The clock readings so far, from the start t0 of the run on. */
  ghost predicate Times(cfg: Config, t0: int, s: State)
    requires ValidConfig(cfg) && Shape(cfg, s)
  {
    && t0 <= s.now
    && (forall p :: 0 <= p < |s.producers| && s.producers[p].pc.Timed? ==> t0 <= s.producers[p].pc.beg <= s.now)
    && (forall p :: 0 <= p < |s.producers| && s.producers[p].pc.Put? ==> t0 <= s.producers[p].pc.beg <= s.now)
    && (forall p: nat, k: nat :: InPlan(cfg.plans, p, k) && k < s.producers[p].next ==> WriteTimes(cfg, t0, s, p, k))
    && (forall p: nat, k: nat :: InPlan(cfg.plans, p, k) && s.readRecs[IdOf(cfg.plans, p, k)].Some? ==>
          ReadTime(cfg, s, p, k))
    && (forall p: nat, k: nat :: InPlan(cfg.plans, p, k) && WasTaken(s, Data(p, k)) ==>
          s.readRecs[IdOf(cfg.plans, p, k)].Some? || IsHeld(s, Data(p, k)))
    && (forall c :: 0 <= c < |s.consumers| && s.consumers[c].pc.Holding? ==> WasTaken(s, s.consumers[c].pc.msg))
  }

  ghost predicate WasTaken(s: State, m: Message) {
    exists j :: 0 <= j < |s.takes| && s.takes[j].msg == m
  }

  ghost predicate WriteTimes(cfg: Config, t0: int, s: State, p: nat, k: nat)
    requires HasSlot(cfg, s, p, k)
  {
    var id := IdOf(cfg.plans, p, k);
    s.begRecs[id].Some? && s.endRecs[id].Some? && t0 <= s.begRecs[id].value <= s.endRecs[id].value <= s.now
  }

  ghost predicate ReadTime(cfg: Config, s: State, p: nat, k: nat)
    requires p < |s.producers| && HasSlot(cfg, s, p, k)
  {
    var r := s.readRecs[IdOf(cfg.plans, p, k)];
    r.Some? && BegOf(cfg, s, p, k).Some? && BegOf(cfg, s, p, k).value <= r.value <= s.now
  }

  ghost predicate Inv(cfg: Config, t0: int, s: State) {
    ValidConfig(cfg) && Phase(cfg, s) && Fifo(cfg, s) && PutLog(cfg, s) && Counts(cfg, s) && Takers(cfg, s)
    && Times(cfg, t0, s)
  }
}
