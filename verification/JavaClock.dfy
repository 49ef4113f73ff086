/**
 Which clock reading each record of the Java harness holds, in terms of the schedule alone: the clock starts
 at some value and advances by the delays that the steps of the schedule carry.
 */
module JavaClock {
  import opened Sequences
  import opened WorkSlices
  import opened JavaHarness
  import opened JavaSafety

  /** The time that passes before a step that reads the clock. */
  function Delay(e: Event): int {
    match e
    case BeginWrite(_, d) => d
    case EndWrite(_, d) => d
    case Record(_, d) => d
    case _ => 0
  }

  /** The clock just after step j of a schedule that starts at time t0. */
  function ClockAfter(t0: int, evs: seq<Event>, j: nat): int
    requires j < |evs|
  {
    t0 + SumBy(evs[..j + 1], Delay)
  }

  lemma {:induction false} ClockAddsDelays(cfg: Config, s: State, evs: seq<Event>)
    requires Admissible(cfg, s, evs)
    ensures Exec(cfg, s, evs).now == s.now + SumBy(evs, Delay)
    decreases |evs|
  {
    if evs == [] {
    } else {
      ClockAddsDelays(cfg, Apply(cfg, s, evs[0]), evs[1..]);
    }
  }

  /** A run consists of its first j steps and the others. */
  lemma {:induction false} RunSplits(cfg: Config, s: State, evs: seq<Event>, j: nat)
    requires Admissible(cfg, s, evs) && j <= |evs|
    ensures Admissible(cfg, s, evs[..j]) && Admissible(cfg, Exec(cfg, s, evs[..j]), evs[j..])
    ensures Exec(cfg, Exec(cfg, s, evs[..j]), evs[j..]) == Exec(cfg, s, evs)
    decreases |evs|
  {
    if j == 0 {
      assert evs[0..] == evs;
    } else {
      RunSplits(cfg, Apply(cfg, s, evs[0]), evs[1..], j - 1);
      assert evs[..j][1..] == evs[1..][..j - 1] && evs[1..][j - 1..] == evs[j..];
    }
  }

  /** Step j of the run, the state before it and the state after it. */
  lemma StepOfRun(cfg: Config, s: State, evs: seq<Event>, j: nat)
    requires Admissible(cfg, s, evs) && j < |evs|
    ensures Admissible(cfg, s, evs[..j]) && Enabled(cfg, Exec(cfg, s, evs[..j]), evs[j])
    ensures var t := Apply(cfg, Exec(cfg, s, evs[..j]), evs[j]);
      && t.now == ClockAfter(s.now, evs, j)
      && Admissible(cfg, t, evs[j + 1..]) && Exec(cfg, t, evs[j + 1..]) == Exec(cfg, s, evs)
  {
    RunSplits(cfg, s, evs, j);
    assert evs[j..][1..] == evs[j + 1..];
    RunSplits(cfg, s, evs, j + 1);
    ClockAddsDelays(cfg, s, evs[..j + 1]);
    RunSplits(cfg, s, evs[..j + 1], j);
    assert evs[..j + 1][..j] == evs[..j] && evs[..j + 1][j..] == [evs[j]];
    assert [evs[j]][1..] == [];
  }

  // ----- The steps at which the readings of a message are taken

  /** Step j of the schedule is the one that reads the clock before message k of producer p is put. */
  ghost predicate Begins(cfg: Config, s: State, evs: seq<Event>, j: nat, p: nat, k: nat) {
    && j < |evs| && evs[j].BeginWrite? && evs[j].p == p && Admissible(cfg, s, evs[..j])
    && var t := Exec(cfg, s, evs[..j]); p < |t.producers| && t.producers[p].next == k
  }

  /** Step j reads the clock after the message has been put. */
  ghost predicate Ends(cfg: Config, s: State, evs: seq<Event>, j: nat, p: nat, k: nat) {
    && j < |evs| && evs[j].EndWrite? && evs[j].p == p && Admissible(cfg, s, evs[..j])
    && var t := Exec(cfg, s, evs[..j]); p < |t.producers| && t.producers[p].next == k
  }

  /** Step j reads the clock for a consumer that has taken the message. */
  ghost predicate Reads(cfg: Config, s: State, evs: seq<Event>, j: nat, p: nat, k: nat) {
    && j < |evs| && evs[j].Record? && Admissible(cfg, s, evs[..j])
    && var t := Exec(cfg, s, evs[..j]);
       evs[j].c < |t.consumers| && t.consumers[evs[j].c].pc == Holding(Data(p, k))
  }

  // ----- What later steps leave alone

  lemma StepKeepsWritten(cfg: Config, s: State, e: Event, p: nat, k: nat)
    requires ValidConfig(cfg) && Phase(cfg, s) && Enabled(cfg, s, e)
    requires InPlan(cfg.plans, p, k) && k < s.producers[p].next && Phase(cfg, Apply(cfg, s, e))
    ensures var s' := Apply(cfg, s, e);
      var id := IdOf(cfg.plans, p, k);
      k < s'.producers[p].next && s'.begRecs[id] == s.begRecs[id] && s'.endRecs[id] == s.endRecs[id]
  {
    var s' := Apply(cfg, s, e);
    if e.EndWrite? {
      assert IdOf(cfg.plans, e.p, s.producers[e.p].next) != IdOf(cfg.plans, p, k);
    } else {
      assert s'.begRecs == s.begRecs && s'.endRecs == s.endRecs;
      StepKeepsNext(cfg, s, e, p);
    }
  }

  /** Only the end of a write moves a producer on to its next message. */
  lemma StepKeepsNext(cfg: Config, s: State, e: Event, p: nat)
    requires Phase(cfg, s) && Enabled(cfg, s, e) && p < |s.producers| && !e.EndWrite?
    requires Shape(cfg, Apply(cfg, s, e))
    ensures Apply(cfg, s, e).producers[p].next == s.producers[p].next
  {
  }

  lemma {:induction false} RunKeepsWritten(cfg: Config, t0: int, s: State, evs: seq<Event>, p: nat, k: nat)
    requires Inv(cfg, t0, s) && Admissible(cfg, s, evs) && InPlan(cfg.plans, p, k) && k < s.producers[p].next
    ensures Inv(cfg, t0, Exec(cfg, s, evs))
    ensures var t := Exec(cfg, s, evs);
      var id := IdOf(cfg.plans, p, k);
      k < t.producers[p].next && t.begRecs[id] == s.begRecs[id] && t.endRecs[id] == s.endRecs[id]
    decreases |evs|
  {
    if evs == [] {
    } else {
      StepKeepsInv(cfg, t0, s, evs[0]);
      StepKeepsWritten(cfg, s, evs[0], p, k);
      RunKeepsWritten(cfg, t0, Apply(cfg, s, evs[0]), evs[1..], p, k);
    }
  }

  /** The writing of the message has begun at time b, whether or not it has ended. */
  predicate BeganAt(cfg: Config, s: State, p: nat, k: nat, b: int)
    requires p < |s.producers| && HasSlot(cfg, s, p, k)
  {
    var pr := s.producers[p];
    if k < pr.next then s.begRecs[IdOf(cfg.plans, p, k)] == Some(b)
    else k == pr.next && (pr.pc == Timed(b) || pr.pc == Put(b))
  }

  lemma StepKeepsBegan(cfg: Config, s: State, e: Event, p: nat, k: nat, b: int)
    requires ValidConfig(cfg) && Phase(cfg, s) && Enabled(cfg, s, e)
    requires InPlan(cfg.plans, p, k) && BeganAt(cfg, s, p, k, b) && Phase(cfg, Apply(cfg, s, e))
    ensures BeganAt(cfg, Apply(cfg, s, e), p, k, b)
  {
    if k < s.producers[p].next {
      StepKeepsWritten(cfg, s, e, p, k);
    } else {
      StepGoesOn(cfg, s, e, p, b);
    }
  }

  /** A producer that has read the begin time keeps it until it has written the record. */
  lemma StepGoesOn(cfg: Config, s: State, e: Event, p: nat, b: int)
    requires Phase(cfg, s) && Enabled(cfg, s, e) && Phase(cfg, Apply(cfg, s, e))
    requires p < |s.producers| && HasSlot(cfg, s, p, s.producers[p].next)
    requires s.producers[p].pc == Timed(b) || s.producers[p].pc == Put(b)
    ensures BeganAt(cfg, Apply(cfg, s, e), p, s.producers[p].next, b)
  {
  }

  lemma {:induction false} RunKeepsBegan(cfg: Config, t0: int, s: State, evs: seq<Event>, p: nat, k: nat, b: int)
    requires Inv(cfg, t0, s) && Admissible(cfg, s, evs)
    requires InPlan(cfg.plans, p, k) && BeganAt(cfg, s, p, k, b)
    ensures Inv(cfg, t0, Exec(cfg, s, evs)) && BeganAt(cfg, Exec(cfg, s, evs), p, k, b)
    decreases |evs|
  {
    if evs == [] {
    } else {
      StepKeepsInv(cfg, t0, s, evs[0]);
      StepKeepsBegan(cfg, s, evs[0], p, k, b);
      RunKeepsBegan(cfg, t0, Apply(cfg, s, evs[0]), evs[1..], p, k, b);
    }
  }

  /** A message is held by one consumer at a time, and by none once it has been read. */
  ghost predicate ReadOnce(cfg: Config, s: State)
    requires ValidConfig(cfg) && Shape(cfg, s)
  {
    && (forall p: nat, k: nat :: InPlan(cfg.plans, p, k) && s.readRecs[IdOf(cfg.plans, p, k)].Some? ==>
          WasTaken(s, Data(p, k)))
    && (forall c, p: nat, k: nat :: InPlan(cfg.plans, p, k) && HeldBy(s, Data(p, k), c) ==>
          s.readRecs[IdOf(cfg.plans, p, k)].None?)
    && (forall b, c, m :: HeldBy(s, m, b) && HeldBy(s, m, c) ==> b == c)
  }

  /** A message that is still queued has not been taken before. */
  lemma HeadIsNew(cfg: Config, s: State, j: nat)
    requires Shape(cfg, s) && Fifo(cfg, s) && PutLog(cfg, s) && s.queue != [] && s.queue[0].Data? && j < |s.takes|
    ensures s.takes[j].msg != s.queue[0]
  {
    assert s.queue[0] == s.puts[|s.takes|];
    if SameProducer(s.puts[j], s.puts[|s.takes|]) { assert s.puts[j].k < s.puts[|s.takes|].k; }
  }

  lemma TakenStaysTaken(s: State, t: Taking, m: Message)
    requires WasTaken(s, m)
    ensures exists j :: 0 <= j < |s.takes + [t]| && (s.takes + [t])[j].msg == m
  {
    var j :| 0 <= j < |s.takes| && s.takes[j].msg == m;
    assert (s.takes + [t])[j].msg == m;
  }

  /** Whoever takes the head of the queue is the only one to hold it. */
  lemma NobodyHoldsHead(cfg: Config, s: State, b: int)
    requires Shape(cfg, s) && Fifo(cfg, s) && PutLog(cfg, s) && s.queue != [] && s.queue[0].Data?
    requires forall c :: 0 <= c < |s.consumers| && s.consumers[c].pc.Holding? ==> WasTaken(s, s.consumers[c].pc.msg)
    ensures !HeldBy(s, s.queue[0], b)
  {
    forall j | 0 <= j < |s.takes| ensures s.takes[j].msg != s.queue[0] { HeadIsNew(cfg, s, j); }
    if 0 <= b < |s.consumers| && s.consumers[b].pc.Holding? { assert WasTaken(s, s.consumers[b].pc.msg); }
  }

  lemma TakeKeepsReadOnce(cfg: Config, s: State, c: nat)
    requires ValidConfig(cfg) && Shape(cfg, s) && Fifo(cfg, s) && PutLog(cfg, s) && ReadOnce(cfg, s)
    requires forall b :: 0 <= b < |s.consumers| && s.consumers[b].pc.Holding? ==> WasTaken(s, s.consumers[b].pc.msg)
    requires Enabled(cfg, s, TakeMessage(c))
    ensures ReadOnce(cfg, Apply(cfg, s, TakeMessage(c)))
  {
    var s' := Apply(cfg, s, TakeMessage(c));
    var n := s.queue[0];
    assert forall b, m :: b != c ==> (HeldBy(s', m, b) <==> HeldBy(s, m, b));
    assert forall m :: HeldBy(s', m, c) ==> m == n && n.Data?;
    if n.Data? {
      forall j | 0 <= j < |s.takes| ensures s.takes[j].msg != n { HeadIsNew(cfg, s, j); }
      forall b ensures !HeldBy(s, n, b) { NobodyHoldsHead(cfg, s, b); }
    }
    forall p: nat, k: nat | InPlan(cfg.plans, p, k) && s'.readRecs[IdOf(cfg.plans, p, k)].Some?
      ensures WasTaken(s', Data(p, k))
    {
      TakenStaysTaken(s, Taking(c, n), Data(p, k));
    }
  }

  lemma RecordKeepsReadOnce(cfg: Config, s: State, c: nat, d: nat)
    requires ValidConfig(cfg) && Shape(cfg, s) && ReadOnce(cfg, s) && Enabled(cfg, s, Record(c, d))
    requires WasTaken(s, s.consumers[c].pc.msg)
    ensures ReadOnce(cfg, Apply(cfg, s, Record(c, d)))
  {
    var s' := Apply(cfg, s, Record(c, d));
    var n := s.consumers[c].pc.msg;
    assert HeldBy(s, n, c);
    assert forall b, m :: HeldBy(s', m, b) <==> b != c && HeldBy(s, m, b);
    assert forall m :: WasTaken(s', m) <==> WasTaken(s, m);
    forall p: nat, k: nat | InPlan(cfg.plans, p, k) && Data(p, k) != n
      ensures s'.readRecs[IdOf(cfg.plans, p, k)] == s.readRecs[IdOf(cfg.plans, p, k)]
    {
      assert IdOf(cfg.plans, p, k) != IdOf(cfg.plans, n.p, n.k);
    }
  }

  lemma FrameReadOnce(cfg: Config, s: State, s': State)
    requires ValidConfig(cfg) && Shape(cfg, s) && Shape(cfg, s') && ReadOnce(cfg, s)
    requires s'.readRecs == s.readRecs && s'.takes == s.takes
    requires forall b, m :: HeldBy(s', m, b) <==> HeldBy(s, m, b)
    ensures ReadOnce(cfg, s')
  {
    assert forall m :: WasTaken(s', m) <==> WasTaken(s, m);
  }

  lemma StepKeepsReadOnce(cfg: Config, t0: int, s: State, e: Event)
    requires Inv(cfg, t0, s) && ReadOnce(cfg, s) && Enabled(cfg, s, e) && Shape(cfg, Apply(cfg, s, e))
    ensures ReadOnce(cfg, Apply(cfg, s, e))
  {
    match e
    case TakeMessage(c) => TakeKeepsReadOnce(cfg, s, c);
    case Record(c, d) => RecordKeepsReadOnce(cfg, s, c, d);
    case _ => FrameReadOnce(cfg, s, Apply(cfg, s, e));
  }

  lemma StepKeepsRead(cfg: Config, s: State, e: Event, p: nat, k: nat)
    requires ValidConfig(cfg) && Shape(cfg, s) && ReadOnce(cfg, s) && Enabled(cfg, s, e)
    requires InPlan(cfg.plans, p, k) && s.readRecs[IdOf(cfg.plans, p, k)].Some?
    ensures var id := IdOf(cfg.plans, p, k);
      id < |Apply(cfg, s, e).readRecs| && Apply(cfg, s, e).readRecs[id] == s.readRecs[id]
  {
    if e.Record? {
      var n := s.consumers[e.c].pc.msg;
      assert HeldBy(s, n, e.c);
      if n != Data(p, k) { assert IdOf(cfg.plans, n.p, n.k) != IdOf(cfg.plans, p, k); }
    }
  }

  lemma {:induction false} RunKeepsReadOnce(cfg: Config, t0: int, s: State, evs: seq<Event>)
    requires Inv(cfg, t0, s) && ReadOnce(cfg, s) && Admissible(cfg, s, evs)
    ensures Inv(cfg, t0, Exec(cfg, s, evs)) && ReadOnce(cfg, Exec(cfg, s, evs))
    decreases |evs|
  {
    if evs == [] {
    } else {
      StepKeepsInv(cfg, t0, s, evs[0]);
      StepKeepsReadOnce(cfg, t0, s, evs[0]);
      RunKeepsReadOnce(cfg, t0, Apply(cfg, s, evs[0]), evs[1..]);
    }
  }

  lemma {:induction false} RunKeepsRead(cfg: Config, t0: int, s: State, evs: seq<Event>, p: nat, k: nat)
    requires Inv(cfg, t0, s) && ReadOnce(cfg, s) && Admissible(cfg, s, evs)
    requires InPlan(cfg.plans, p, k) && s.readRecs[IdOf(cfg.plans, p, k)].Some?
    ensures var id := IdOf(cfg.plans, p, k);
      Shape(cfg, Exec(cfg, s, evs)) && Exec(cfg, s, evs).readRecs[id] == s.readRecs[id]
    decreases |evs|
  {
    if evs == [] {
    } else {
      StepKeepsInv(cfg, t0, s, evs[0]);
      StepKeepsReadOnce(cfg, t0, s, evs[0]);
      StepKeepsRead(cfg, s, evs[0], p, k);
      RunKeepsRead(cfg, t0, Apply(cfg, s, evs[0]), evs[1..], p, k);
    }
  }

  lemma InitReadOnce(cfg: Config, s: State)
    requires ValidConfig(cfg) && Init(cfg, s)
    ensures ReadOnce(cfg, s)
  {
  }

  // ----- The readings that a run leaves in the records

  lemma BeginSets(cfg: Config, s: State, p: nat, d: nat)
    requires Enabled(cfg, s, BeginWrite(p, d)) && HasSlot(cfg, s, p, s.producers[p].next)
    ensures var t := Apply(cfg, s, BeginWrite(p, d)); BeganAt(cfg, t, p, s.producers[p].next, t.now)
  {
  }

  lemma EndSets(cfg: Config, s: State, p: nat, d: nat)
    requires Enabled(cfg, s, EndWrite(p, d))
    ensures var t := Apply(cfg, s, EndWrite(p, d));
      var k := s.producers[p].next;
      && k < t.producers[p].next
      && 0 <= IdOf(cfg.plans, p, k) < |t.endRecs| && t.endRecs[IdOf(cfg.plans, p, k)] == Some(t.now)
  {
  }

  lemma ReadStep(cfg: Config, t0: int, s: State, c: nat, d: nat)
    requires Inv(cfg, t0, s) && ReadOnce(cfg, s) && Enabled(cfg, s, Record(c, d))
    ensures Inv(cfg, t0, Apply(cfg, s, Record(c, d))) && ReadOnce(cfg, Apply(cfg, s, Record(c, d)))
  {
    StepKeepsInv(cfg, t0, s, Record(c, d));
    StepKeepsReadOnce(cfg, t0, s, Record(c, d));
  }

  lemma RecordSets(cfg: Config, s: State, c: nat, d: nat)
    requires Enabled(cfg, s, Record(c, d))
    ensures var t := Apply(cfg, s, Record(c, d));
      var m := s.consumers[c].pc.msg;
      0 <= IdOf(cfg.plans, m.p, m.k) < |t.readRecs| && t.readRecs[IdOf(cfg.plans, m.p, m.k)] == Some(t.now)
  {
  }

  /** The begin record, once written, is the clock just after the step that began the write. */
  lemma BeginReading(cfg: Config, s0: State, evs: seq<Event>, j: nat, p: nat, k: nat)
    requires ValidConfig(cfg) && Init(cfg, s0) && Admissible(cfg, s0, evs) && Begins(cfg, s0, evs, j, p, k)
    ensures InPlan(cfg.plans, p, k)
    ensures var s := Exec(cfg, s0, evs);
      Shape(cfg, s) && (k < s.producers[p].next ==>
        s.begRecs[IdOf(cfg.plans, p, k)] == Some(ClockAfter(s0.now, evs, j)))
  {
    ReachableInv(cfg, s0, evs[..j]);
    StepOfRun(cfg, s0, evs, j);
    StepKeepsInv(cfg, s0.now, Exec(cfg, s0, evs[..j]), evs[j]);
    BeginSets(cfg, Exec(cfg, s0, evs[..j]), p, evs[j].d);
    var t := Apply(cfg, Exec(cfg, s0, evs[..j]), evs[j]);
    RunKeepsBegan(cfg, s0.now, t, evs[j + 1..], p, k, t.now);
  }

  /** The end record is the clock just after the step that ended the write. */
  lemma EndReading(cfg: Config, s0: State, evs: seq<Event>, j: nat, p: nat, k: nat)
    requires ValidConfig(cfg) && Init(cfg, s0) && Admissible(cfg, s0, evs) && Ends(cfg, s0, evs, j, p, k)
    ensures InPlan(cfg.plans, p, k)
    ensures var s := Exec(cfg, s0, evs);
      Shape(cfg, s) && s.endRecs[IdOf(cfg.plans, p, k)] == Some(ClockAfter(s0.now, evs, j))
  {
    ReachableInv(cfg, s0, evs[..j]);
    StepOfRun(cfg, s0, evs, j);
    StepKeepsInv(cfg, s0.now, Exec(cfg, s0, evs[..j]), evs[j]);
    EndSets(cfg, Exec(cfg, s0, evs[..j]), p, evs[j].d);
    RunKeepsWritten(cfg, s0.now, Apply(cfg, Exec(cfg, s0, evs[..j]), evs[j]), evs[j + 1..], p, k);
  }

  /** The read record is the clock just after the step that recorded the read. */
  lemma ReadReading(cfg: Config, s0: State, evs: seq<Event>, j: nat, p: nat, k: nat)
    requires ValidConfig(cfg) && Init(cfg, s0) && Admissible(cfg, s0, evs) && Reads(cfg, s0, evs, j, p, k)
    ensures InPlan(cfg.plans, p, k)
    ensures var s := Exec(cfg, s0, evs);
      Shape(cfg, s) && s.readRecs[IdOf(cfg.plans, p, k)] == Some(ClockAfter(s0.now, evs, j))
  {
    InitHasInv(cfg, s0);
    InitReadOnce(cfg, s0);
    StepOfRun(cfg, s0, evs, j);
    RunKeepsReadOnce(cfg, s0.now, s0, evs[..j]);
    ReadStep(cfg, s0.now, Exec(cfg, s0, evs[..j]), evs[j].c, evs[j].d);
    RecordSets(cfg, Exec(cfg, s0, evs[..j]), evs[j].c, evs[j].d);
    RunKeepsRead(cfg, s0.now, Apply(cfg, Exec(cfg, s0, evs[..j]), evs[j]), evs[j + 1..], p, k);
  }

  // ----- Every reading was taken

  /** Step j of the rest of a run is step j + 1 of the run. */
  lemma Shifted(cfg: Config, s: State, evs: seq<Event>, j: nat)
    requires Admissible(cfg, s, evs) && evs != [] && j < |evs[1..]|
    ensures evs[1..][j] == evs[j + 1]
    ensures Admissible(cfg, s, evs[..j + 1]) && Admissible(cfg, Apply(cfg, s, evs[0]), evs[1..][..j])
    ensures Exec(cfg, s, evs[..j + 1]) == Exec(cfg, Apply(cfg, s, evs[0]), evs[1..][..j])
  {
    RunSplits(cfg, s, evs, j + 1);
    assert evs[..j + 1][1..] == evs[1..][..j];
  }

  predicate Started(s: State, p: nat, k: nat) {
    p < |s.producers| && (k < s.producers[p].next
      || (k == s.producers[p].next && (s.producers[p].pc.Timed? || s.producers[p].pc.Put?)))
  }

  lemma {:induction false} FindBegin(cfg: Config, s: State, evs: seq<Event>, p: nat, k: nat) returns (j: nat)
    requires Admissible(cfg, s, evs) && p < |s.producers| && !Started(s, p, k) && Started(Exec(cfg, s, evs), p, k)
    ensures Begins(cfg, s, evs, j, p, k)
    decreases |evs|
  {
    var s' := Apply(cfg, s, evs[0]);
    if Started(s', p, k) {
      j := 0;
      assert evs[..0] == [];
    } else {
      var i := FindBegin(cfg, s', evs[1..], p, k);
      Shifted(cfg, s, evs, i);
      j := i + 1;
    }
  }

  lemma {:induction false} FindEnd(cfg: Config, s: State, evs: seq<Event>, p: nat, k: nat) returns (j: nat)
    requires Admissible(cfg, s, evs) && p < |s.producers| && p < |Exec(cfg, s, evs).producers|
    requires s.producers[p].next <= k < Exec(cfg, s, evs).producers[p].next
    ensures Ends(cfg, s, evs, j, p, k)
    decreases |evs|
  {
    var s' := Apply(cfg, s, evs[0]);
    if k < s'.producers[p].next {
      j := 0;
      assert evs[..0] == [];
    } else {
      var i := FindEnd(cfg, s', evs[1..], p, k);
      Shifted(cfg, s, evs, i);
      j := i + 1;
    }
  }

  lemma {:induction false} FindRead(cfg: Config, s: State, evs: seq<Event>, p: nat, k: nat) returns (j: nat)
    requires ValidConfig(cfg) && InPlan(cfg.plans, p, k) && Admissible(cfg, s, evs)
    requires var id := IdOf(cfg.plans, p, k);
      && id < |s.readRecs| && s.readRecs[id].None?
      && id < |Exec(cfg, s, evs).readRecs| && Exec(cfg, s, evs).readRecs[id].Some?
    ensures Reads(cfg, s, evs, j, p, k)
    decreases |evs|
  {
    var s' := Apply(cfg, s, evs[0]);
    if s'.readRecs[IdOf(cfg.plans, p, k)].Some? {
      j := 0;
      assert evs[..0] == [];
    } else {
      var i := FindRead(cfg, s', evs[1..], p, k);
      Shifted(cfg, s, evs, i);
      j := i + 1;
    }
  }

  /** Steps i, j and l took the three readings of the message, and these are in the records. */
  ghost predicate Clocked(cfg: Config, s0: State, evs: seq<Event>, p: nat, k: nat, i: nat, j: nat, l: nat) {
    && Begins(cfg, s0, evs, i, p, k) && Ends(cfg, s0, evs, j, p, k) && Reads(cfg, s0, evs, l, p, k)
    && Admissible(cfg, s0, evs) && HasSlot(cfg, Exec(cfg, s0, evs), p, k)
    && var s := Exec(cfg, s0, evs);
       var id := IdOf(cfg.plans, p, k);
       && s.begRecs[id] == Some(ClockAfter(s0.now, evs, i))
       && s.endRecs[id] == Some(ClockAfter(s0.now, evs, j))
       && s.readRecs[id] == Some(ClockAfter(s0.now, evs, l))
  }

  ghost predicate IsClocked(cfg: Config, s0: State, evs: seq<Event>, p: nat, k: nat) {
    exists i, j, l :: Clocked(cfg, s0, evs, p, k, i, j, l)
  }

  /** Every reading in the records is the clock just after the step of the schedule that took it. */
  ghost predicate AllClocked(cfg: Config, s0: State, evs: seq<Event>) {
    forall p: nat, k: nat :: InPlan(cfg.plans, p, k) ==> IsClocked(cfg, s0, evs, p, k)
  }

  lemma WrittenAndReadIsClocked(cfg: Config, s0: State, evs: seq<Event>, p: nat, k: nat)
    requires ValidConfig(cfg) && Init(cfg, s0) && Admissible(cfg, s0, evs) && InPlan(cfg.plans, p, k)
    requires var s := Exec(cfg, s0, evs);
      Shape(cfg, s) && k < s.producers[p].next && s.readRecs[IdOf(cfg.plans, p, k)].Some?
    ensures IsClocked(cfg, s0, evs, p, k)
  {
    var i := FindBegin(cfg, s0, evs, p, k);
    var j := FindEnd(cfg, s0, evs, p, k);
    var l := FindRead(cfg, s0, evs, p, k);
    BeginReading(cfg, s0, evs, i, p, k);
    EndReading(cfg, s0, evs, j, p, k);
    ReadReading(cfg, s0, evs, l, p, k);
    assert Clocked(cfg, s0, evs, p, k, i, j, l);
  }
}
