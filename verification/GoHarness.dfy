/**
 The Go thread-transfer harness: producers and consumers meet on an unbuffered channel of blocks, and all of
 them, the ready values of the consumers included, signal the main goroutine on one unbuffered channel of
 ints.  A send and the matching receive are one step.  A run is any interleaving of such steps.
 */
module GoHarness {
  import opened Sequences
  import opened WorkSlices

  datatype Config = Config(plans: Plans, consumers: nat, total: nat)

  ghost predicate ValidConfig(cfg: Config) {
    Tiles(cfg.plans, cfg.total) && cfg.consumers >= 1 && |cfg.plans| >= 1
  }

  /** v is the value that AddInt32 returned, num the blocks counted so far. */
  datatype Consumer =
    | Fresh
    | SendReady(v: nat)                          // at c_signal <- v
    | Receiving(v: nat, num: nat)                // at <-c
    | Got(v: nat, num: nat, p: nat, k: nat)      // has a block, not yet stamped
    | Leaving(v: nat, num: nat)                  // has received nil
    | SendDone(v: nat)                           // at c_signal <- 2
    | Gone(v: nat)

  datatype Producer =
    | Unspawned
    | Next(k: nat)       // before block k, or at c_signal <- 1 after the last
    | Stamped(k: nat)    // at c <- &blocks[idx]
    | Sent(k: nat)       // sent, second timestamp not yet taken
    | Finished(k: nat)

  /** pc and cc are the counts of completed producers and consumers in the join loop. */
  datatype MainPc =
    | ReadyLoop | Spawning(i: nat)
    | Joining(pc: nat, cc: nat) | SendingNil(pc: nat, cc: nat, i: nat) | Done

  datatype State = State(
    main: MainPc, producers: seq<Producer>, consumers: seq<Consumer>,
    consumerReady: nat, readNum: seq<nat>, now: int,
    ts0: seq<Option<int>>, ts1: seq<Option<int>>, ts2: seq<Option<int>>)

  datatype Event =
    | AddReady(c: nat) | SignalReady(c: nat)
    | Spawn
    | Begin(p: nat, d: nat) | Deliver(p: nat, c: nat) | EndSend(p: nat, d: nat) | SignalProducer(p: nat)
    | SendNil(c: nat) | Stamp(c: nat, d: nat) | Publish(c: nat) | SignalConsumer(c: nat)

  predicate Receives(m: MainPc) {
    m.ReadyLoop? || m.Joining?
  }

  /** What the main goroutine does with a value from the signal channel. */
  function OnSignal(cfg: Config, m: MainPc, tmp: nat): MainPc
    requires Receives(m)
  {
    if m.ReadyLoop? then
      if tmp == cfg.consumers then Spawning(0) else ReadyLoop
    else if tmp == 1 then
      if m.pc + 1 == |cfg.plans| then SendingNil(m.pc + 1, m.cc, 0) else Joining(m.pc + 1, m.cc)
    else if tmp == 2 then
      if m.cc + 1 == cfg.consumers then Done else Joining(m.pc, m.cc + 1)
    else m
  }

  predicate HasSlot(cfg: Config, s: State, p: int, k: int) {
    InPlan(cfg.plans, p, k) && 0 <= IdOf(cfg.plans, p, k) < |s.ts0| == |s.ts1| == |s.ts2|
  }

  predicate Enabled(cfg: Config, s: State, e: Event) {
    match e
    case AddReady(c) => c < |s.consumers| && s.consumers[c].Fresh?
    case SignalReady(c) => c < |s.consumers| && s.consumers[c].SendReady? && Receives(s.main)
    case Spawn => s.main.Spawning? && s.main.i < |s.producers|
    case Begin(p, _) =>
      p < |s.producers| && s.producers[p].Next? && HasSlot(cfg, s, p, s.producers[p].k)
    case Deliver(p, c) =>
      && p < |s.producers| && s.producers[p].Stamped?
      && c < |s.consumers| && s.consumers[c].Receiving?
    case EndSend(p, _) =>
      p < |s.producers| && s.producers[p].Sent? && HasSlot(cfg, s, p, s.producers[p].k)
    case SignalProducer(p) =>
      && p < |s.producers| && s.producers[p].Next? && !InPlan(cfg.plans, p, s.producers[p].k)
      && s.main.Joining?
    case SendNil(c) => s.main.SendingNil? && c < |s.consumers| && s.consumers[c].Receiving?
    case Stamp(c, _) =>
      c < |s.consumers| && s.consumers[c].Got? && HasSlot(cfg, s, s.consumers[c].p, s.consumers[c].k)
    case Publish(c) =>
      c < |s.consumers| && s.consumers[c].Leaving? && 1 <= s.consumers[c].v <= |s.readNum|
    case SignalConsumer(c) => c < |s.consumers| && s.consumers[c].SendDone? && s.main.Joining?
  }

  function Apply(cfg: Config, s: State, e: Event): State
    requires Enabled(cfg, s, e)
  {
    match e
    case AddReady(c) =>
      s.(consumerReady := s.consumerReady + 1, consumers := s.consumers[c := SendReady(s.consumerReady + 1)])
    case SignalReady(c) =>
      var v := s.consumers[c].v;
      s.(main := OnSignal(cfg, s.main, v), consumers := s.consumers[c := Receiving(v, 0)])
    case Spawn =>
      s.(main := if s.main.i + 1 == |s.producers| then Joining(0, 0) else Spawning(s.main.i + 1),
         producers := s.producers[s.main.i := Next(0)])
    case Begin(p, d) =>
      var k := s.producers[p].k;
      s.(now := s.now + d, ts0 := s.ts0[IdOf(cfg.plans, p, k) := Some(s.now + d)],
         producers := s.producers[p := Stamped(k)])
    case Deliver(p, c) =>
      var k, w := s.producers[p].k, s.consumers[c];
      s.(producers := s.producers[p := Sent(k)], consumers := s.consumers[c := Got(w.v, w.num, p, k)])
    case EndSend(p, d) =>
      var k := s.producers[p].k;
      s.(now := s.now + d, ts1 := s.ts1[IdOf(cfg.plans, p, k) := Some(s.now + d)],
         producers := s.producers[p := Next(k + 1)])
    case SignalProducer(p) =>
      s.(main := OnSignal(cfg, s.main, 1), producers := s.producers[p := Finished(s.producers[p].k)])
    case SendNil(c) =>
      var w, m := s.consumers[c], s.main;
      s.(main := if m.i + 1 == cfg.consumers then Joining(m.pc, m.cc) else SendingNil(m.pc, m.cc, m.i + 1),
         consumers := s.consumers[c := Leaving(w.v, w.num)])
    case Stamp(c, d) =>
      var w := s.consumers[c];
      s.(now := s.now + d, ts2 := s.ts2[IdOf(cfg.plans, w.p, w.k) := Some(s.now + d)],
         consumers := s.consumers[c := Receiving(w.v, w.num + 1)])
    case Publish(c) =>
      var w := s.consumers[c];
      s.(readNum := s.readNum[w.v - 1 := w.num], consumers := s.consumers[c := SendDone(w.v)])
    case SignalConsumer(c) =>
      s.(main := OnSignal(cfg, s.main, 2), consumers := s.consumers[c := Gone(s.consumers[c].v)])
  }

  predicate Admissible(cfg: Config, s: State, evs: seq<Event>)
    decreases |evs|
  {
    evs == [] || (Enabled(cfg, s, evs[0]) && Admissible(cfg, Apply(cfg, s, evs[0]), evs[1..]))
  }

  function Exec(cfg: Config, s: State, evs: seq<Event>): State
    requires Admissible(cfg, s, evs)
    decreases |evs|
  {
    if evs == [] then s else Exec(cfg, Apply(cfg, s, evs[0]), evs[1..])
  }

  lemma {:induction false} ExecAppend(cfg: Config, s: State, evs: seq<Event>, more: seq<Event>)
    requires Admissible(cfg, s, evs) && Admissible(cfg, Exec(cfg, s, evs), more)
    ensures Admissible(cfg, s, evs + more)
    ensures Exec(cfg, s, evs + more) == Exec(cfg, Exec(cfg, s, evs), more)
    decreases |evs|
  {
    if evs == [] {
      assert evs + more == more;
    } else {
      assert (evs + more)[1..] == evs[1..] + more;
      ExecAppend(cfg, Apply(cfg, s, evs[0]), evs[1..], more);
    }
  }

  lemma ExecOne(cfg: Config, s: State, e: Event)
    requires Enabled(cfg, s, e)
    ensures Admissible(cfg, s, [e]) && Exec(cfg, s, [e]) == Apply(cfg, s, e)
  {
    assert [e][0] == e && [e][1..] == [];
  }

  /** The state in which the goroutines of the consumers start. */
  function InitialState(cfg: Config, start: int): State {
    var none := seq(cfg.total, _ => None);
    State(ReadyLoop, seq(|cfg.plans|, _ => Unspawned), seq(cfg.consumers, _ => Fresh),
          0, seq(cfg.consumers, _ => 0), start, none, none, none)
  }

  // ----- Invariants of every run

  predicate Shape(cfg: Config, s: State) {
    && |s.producers| == |cfg.plans| && |s.consumers| == |s.readNum| == cfg.consumers
    && |s.ts0| == |s.ts1| == |s.ts2| == cfg.total
  }

  function IsFresh(c: Consumer): int { if c.Fresh? then 1 else 0 }

  predicate InLoop(c: Consumer) { c.Receiving? || c.Got? }

  /** Consumers have distinct values 1, 2, ..., and the last of them has been received when the loop ends. */
  ghost predicate Ready(cfg: Config, s: State)
    requires Shape(cfg, s)
  {
    && SumBy(s.consumers, IsFresh) + s.consumerReady == cfg.consumers
    && (forall c :: 0 <= c < |s.consumers| && !s.consumers[c].Fresh? ==> 1 <= s.consumers[c].v <= s.consumerReady)
    && (forall b, c :: 0 <= b < c < |s.consumers| && !s.consumers[b].Fresh? && !s.consumers[c].Fresh? ==>
          s.consumers[b].v != s.consumers[c].v)
    && (if s.main.ReadyLoop? then
          forall c :: 0 <= c < |s.consumers| ==>
            || s.consumers[c].Fresh? || s.consumers[c].SendReady?
            || (s.consumers[c].Receiving? && s.consumers[c].v < cfg.consumers && s.consumers[c].num == 0)
        else LastReadyReceived(cfg, s))
  }

  ghost predicate LastReadyReceived(cfg: Config, s: State) {
    && s.consumerReady == cfg.consumers
    && exists c :: HasValue(s, c, cfg.consumers) && !s.consumers[c].SendReady?
  }

  predicate HasValue(s: State, c: int, v: nat) {
    0 <= c < |s.consumers| && !s.consumers[c].Fresh? && s.consumers[c].v == v
  }

  ghost predicate Working(cfg: Config, s: State)
    requires Shape(cfg, s)
  {
    && (forall p :: 0 <= p < |s.producers| ==>
          match s.producers[p]
          case Unspawned => true
          case Next(k) => k <= |cfg.plans[p]|
          case Stamped(k) => k < |cfg.plans[p]|
          case Sent(k) => k < |cfg.plans[p]|
          case Finished(k) => k == |cfg.plans[p]|)
    && match s.main
       case ReadyLoop => forall p :: 0 <= p < |s.producers| ==> s.producers[p].Unspawned?
       case Spawning(i) =>
         i < |s.producers| && forall p :: 0 <= p < |s.producers| ==> (s.producers[p].Unspawned? <==> i <= p)
       case _ => forall p :: 0 <= p < |s.producers| ==> !s.producers[p].Unspawned?
  }

  /** Blocks a producer has handed over. */
  function SentOf(p: Producer): int {
    match p
    case Unspawned => 0
    case Next(k) => k
    case Stamped(k) => k
    case Sent(k) => k + 1
    case Finished(k) => k
  }

  /** Blocks a consumer has and has not yet written to consumer_read_num. */
  function Credit(c: Consumer): int {
    match c
    case Receiving(_, num) => num
    case Got(_, num, _, _) => num + 1
    case Leaving(_, num) => num
    case _ => 0
  }

  /** A consumer with a value that has not yet written consumer_read_num. */
  predicate Unpublished(c: Consumer) {
    c.SendReady? || c.Receiving? || c.Got? || c.Leaving?
  }

  predicate NothingPublished(s: State, c: Consumer)
    requires !c.Fresh?
  {
    1 <= c.v <= |s.readNum| ==> s.readNum[c.v - 1] == 0
  }

  function Count(n: nat): int { n }

  /** Every block handed over is counted by a consumer, in its local counter or in consumer_read_num. */
  ghost predicate Conserved(cfg: Config, s: State)
    requires Shape(cfg, s)
  {
    && SumBy(s.readNum, Count) + SumBy(s.consumers, Credit) == SumBy(s.producers, SentOf)
    && (forall c :: 0 <= c < |s.consumers| && Unpublished(s.consumers[c]) ==> NothingPublished(s, s.consumers[c]))
    && (forall v :: s.consumerReady <= v < |s.readNum| ==> s.readNum[v] == 0)
  }

  ghost predicate HeldBy(s: State, p: nat, k: nat, c: int) {
    0 <= c < |s.consumers| && s.consumers[c].Got? && s.consumers[c].p == p && s.consumers[c].k == k
  }

  ghost predicate IsHeld(s: State, p: nat, k: nat) {
    exists c :: HeldBy(s, p, k, c)
  }

  predicate Begun(s: State, p: nat, k: nat)
    requires p < |s.producers|
  {
    k < SentOf(s.producers[p]) || (s.producers[p].Stamped? && k == s.producers[p].k)
  }

  predicate EndedSend(s: State, p: nat, k: nat)
    requires p < |s.producers|
  {
    k < SentOf(s.producers[p]) && !(s.producers[p].Sent? && k == s.producers[p].k)
  }

  /** Timestamp k was taken after the first and is not in the future. */
  predicate After(first: Option<int>, later: Option<int>, now: int) {
    first.Some? && later.Some? && first.value <= later.value <= now
  }

  ghost predicate BlockTimes(cfg: Config, s: State, p: nat, k: nat)
    requires p < |s.producers| && HasSlot(cfg, s, p, k)
  {
    var id := IdOf(cfg.plans, p, k);
    && (Begun(s, p, k) ==> s.ts0[id].Some? && s.ts0[id].value <= s.now)
    && (EndedSend(s, p, k) ==> After(s.ts0[id], s.ts1[id], s.now))
    && (k < SentOf(s.producers[p]) ==> After(s.ts0[id], s.ts2[id], s.now) || IsHeld(s, p, k))
  }

  ghost predicate Times(cfg: Config, s: State)
    requires ValidConfig(cfg) && Shape(cfg, s)
  {
    && (forall p: nat, k: nat :: InPlan(cfg.plans, p, k) ==> BlockTimes(cfg, s, p, k))
    && (forall c :: 0 <= c < |s.consumers| && s.consumers[c].Got? ==>
          InPlan(cfg.plans, s.consumers[c].p, s.consumers[c].k)
          && s.consumers[c].k < SentOf(s.producers[s.consumers[c].p]))
  }

  ghost predicate Inv(cfg: Config, s: State) {
    ValidConfig(cfg) && Shape(cfg, s) && Ready(cfg, s) && Working(cfg, s) && Conserved(cfg, s) && Times(cfg, s)
  }
}
