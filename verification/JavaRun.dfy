/** The Java classes with their fields and record arrays updated in place, and the report of a run. */
module JavaRun {
  import opened Sequences
  import opened WorkSlices
  import opened JavaHarness
  import opened LatencyReport

  const ACTION_WRITE_BEGIN: int := 0
  const ACTION_WRITE_END: int := 1
  const ACTION_READ: int := 2

  class LatencyBenchmarkHandle {
    const recordCount: nat
    var actionMap: map<int, string>
    var actionTimeRecords: map<int, array<Option<LatencyBenchmarkRecord>>>

    constructor (recordCount: nat)
      ensures this.recordCount == recordCount && actionMap == map[] && actionTimeRecords == map[]
    {
      this.recordCount := recordCount;
      actionMap, actionTimeRecords := map[], map[];
    }

    /** Registers an action with a new array of null records. */
    method AddAction(id: int, actionName: string)
      modifies this
      ensures actionMap == old(actionMap)[id := actionName]
      ensures id in actionTimeRecords && fresh(actionTimeRecords[id])
      ensures actionTimeRecords == old(actionTimeRecords)[id := actionTimeRecords[id]]
      ensures actionTimeRecords[id].Length == recordCount
      ensures forall i :: 0 <= i < recordCount ==> actionTimeRecords[id][i] == None
    {
      actionMap := actionMap[id := actionName];
      var records := new Option<LatencyBenchmarkRecord>[recordCount](_ => None);
      actionTimeRecords := actionTimeRecords[id := records];
    }
  }

  /** The clock readings in a record array. */
  function Readings(rs: Records): (ts: seq<Option<int>>)
    ensures |ts| == |rs|
  {
    seq(|rs|, i requires 0 <= i < |rs| => if rs[i].None? then None else Some(rs[i].value.nsec))
  }

  /** The harness sets the id and leaves the seconds zero. */
  predicate WellFormed(rs: Records, action: int) {
    forall i :: 0 <= i < |rs| && rs[i].Some? ==>
      rs[i].value.action == action && rs[i].value.id == i && rs[i].value.sec == 0
  }

  class LatencyBenchmarkThreadTrans {
    const handle: LatencyBenchmarkHandle
    ghost const cfg: Config
    const plans: Plans
    const capacity: nat
    const begRecords: array<Option<LatencyBenchmarkRecord>>
    const endRecords: array<Option<LatencyBenchmarkRecord>>
    const readRecords: array<Option<LatencyBenchmarkRecord>>
    var main: MainPc
    var producers: seq<Producer>
    var consumers: seq<Consumer>
    var queue: seq<Message>
    var now: int
    ghost var puts: seq<Message>
    ghost var takes: seq<Taking>

    ghost predicate Valid()
      reads this, handle, begRecords, endRecords, readRecords
    {
      && cfg.plans == plans && cfg.capacity == capacity
      && begRecords.Length == endRecords.Length == readRecords.Length == cfg.recordCount
      && begRecords != endRecords && begRecords != readRecords && endRecords != readRecords
      && handle.actionTimeRecords == map[ACTION_WRITE_BEGIN := begRecords, ACTION_WRITE_END := endRecords,
                                         ACTION_READ := readRecords]
      && WellFormed(begRecords[..], ACTION_WRITE_BEGIN)
      && WellFormed(endRecords[..], ACTION_WRITE_END)
      && WellFormed(readRecords[..], ACTION_READ)
    }

    ghost function View(): State
      reads this, begRecords, endRecords, readRecords
    {
      State(main, producers, consumers, queue, now,
            Readings(begRecords[..]), Readings(endRecords[..]), Readings(readRecords[..]), puts, takes)
    }

    constructor (totalRounds: nat, recordPerRound: nat, producer: nat, consumer: nat, capacity: nat, start: int)
      ensures Valid() && fresh(handle) && fresh(begRecords) && fresh(endRecords) && fresh(readRecords)
      ensures cfg == Config(JavaPlans(producer, totalRounds * recordPerRound), consumer, capacity,
                            producer * (totalRounds * recordPerRound))
      ensures View() == InitialState(cfg, start)
    {
      var count := totalRounds * recordPerRound;
      var recordCount := producer * count;
      var h := new LatencyBenchmarkHandle(recordCount);
      h.AddAction(ACTION_WRITE_BEGIN, "write_begin");
      h.AddAction(ACTION_WRITE_END, "write_end");
      h.AddAction(ACTION_READ, "read");
      handle := h;
      begRecords := h.actionTimeRecords[ACTION_WRITE_BEGIN];
      endRecords := h.actionTimeRecords[ACTION_WRITE_END];
      readRecords := h.actionTimeRecords[ACTION_READ];
      plans := JavaPlans(producer, count);
      this.capacity := capacity;
      cfg := Config(JavaPlans(producer, count), consumer, capacity, recordCount);
      main := StartConsumers(0);
      producers := seq(producer, _ => Producer(NotStarted, 0));
      consumers := seq(consumer, _ => Consumer(Unborn, 0));
      queue, now, puts, takes := [], start, [], [];
      new;
      assert View().begRecs == InitialState(cfg, start).begRecs;
      assert View().endRecs == InitialState(cfg, start).endRecs;
      assert View().readRecs == InitialState(cfg, start).readRecs;
    }

    /** The next statement of run: start a thread, join one, put an end marker, or return. */
    method MainStep()
      requires Valid() && Enabled(cfg, View(), Event.MainStep)
      modifies this
      ensures Valid() && View() == Apply(cfg, old(View()), Event.MainStep)
    {
      match main {
        case StartConsumers(i) =>
          if i < |consumers| {
            consumers, main := consumers[i := Consumer(Waiting, 0)], StartConsumers(i + 1);
          } else {
            main := StartProducers(0);
          }
        case StartProducers(i) =>
          if i < |producers| {
            producers, main := producers[i := Producer(Ready, 0)], StartProducers(i + 1);
          } else {
            main := JoinProducers(0);
          }
        case JoinProducers(i) =>
          main := if i < |producers| then JoinProducers(i + 1) else Completing(0);
        case Completing(i) =>
          if i < |consumers| {
            queue, puts, main := queue + [EndMarker], puts + [EndMarker], Completing(i + 1);
          } else {
            main := JoinConsumers(0);
          }
        case JoinConsumers(i) =>
          if i < |consumers| {
            main := JoinConsumers(i + 1);
          } else {
            var total := SumTotalRead();
            main := Returned(total);
          }
      }
    }

    /** The loop over the consumers' counters. */
    method SumTotalRead() returns (total: int)
      ensures total == SumBy(consumers, TotalRead)
    {
      total := 0;
      for i := 0 to |consumers|
        invariant total + SumBy(consumers[i..], TotalRead) == SumBy(consumers, TotalRead)
      {
        assert consumers[i..][1..] == consumers[i + 1..];
        total := total + consumers[i].totalRead;
      }
    }

    method BeginWrite(p: nat, d: nat)
      requires Valid() && Enabled(cfg, View(), Event.BeginWrite(p, d))
      modifies this`now, this`producers
      ensures Valid() && View() == Apply(cfg, old(View()), Event.BeginWrite(p, d))
    {
      now := now + d;
      producers := producers[p := producers[p].(pc := Timed(now))];
    }

    method PutMessage(p: nat)
      requires Valid() && Enabled(cfg, View(), Event.PutMessage(p))
      modifies this`queue, this`puts, this`producers
      ensures Valid() && View() == Apply(cfg, old(View()), Event.PutMessage(p))
    {
      var msg := Data(p, producers[p].next);
      queue, puts := queue + [msg], puts + [msg];
      producers := producers[p := producers[p].(pc := Put(producers[p].pc.beg))];
    }

    method EndWrite(p: nat, d: nat)
      requires Valid() && Enabled(cfg, View(), Event.EndWrite(p, d))
      modifies this`now, this`producers, begRecords, endRecords
      ensures Valid() && View() == Apply(cfg, old(View()), Event.EndWrite(p, d))
    {
      var id := IdOf(plans, p, producers[p].next);
      now := now + d;
      begRecords[id] := Some(LatencyBenchmarkRecord(ACTION_WRITE_BEGIN, id, 0, producers[p].pc.beg));
      endRecords[id] := Some(LatencyBenchmarkRecord(ACTION_WRITE_END, id, 0, now));
      producers := producers[p := Producer(Ready, producers[p].next + 1)];
      assert Readings(begRecords[..]) == Apply(cfg, old(View()), Event.EndWrite(p, d)).begRecs;
      assert Readings(endRecords[..]) == Apply(cfg, old(View()), Event.EndWrite(p, d)).endRecs;
    }

    method EndProducer(p: nat)
      requires Valid() && Enabled(cfg, View(), Event.EndProducer(p))
      modifies this`producers
      ensures Valid() && View() == Apply(cfg, old(View()), Event.EndProducer(p))
    {
      producers := producers[p := producers[p].(pc := Ended)];
    }

    method TakeMessage(c: nat)
      requires Valid() && Enabled(cfg, View(), Event.TakeMessage(c))
      modifies this`queue, this`takes, this`consumers
      ensures Valid() && View() == Apply(cfg, old(View()), Event.TakeMessage(c))
    {
      var msg := queue[0];
      queue, takes := queue[1..], takes + [Taking(c, msg)];
      consumers := consumers[c := consumers[c].(pc := if msg.EndMarker? then Exited else Holding(msg))];
    }

    method RecordRead(c: nat, d: nat)
      requires Valid() && Enabled(cfg, View(), Event.Record(c, d))
      modifies this`now, this`consumers, readRecords
      ensures Valid() && View() == Apply(cfg, old(View()), Event.Record(c, d))
    {
      var msg := consumers[c].pc.msg;
      var id := IdOf(plans, msg.p, msg.k);
      now := now + d;
      readRecords[id] := Some(LatencyBenchmarkRecord(ACTION_READ, id, 0, now));
      consumers := consumers[c := Consumer(Waiting, consumers[c].totalRead + 1)];
      assert Readings(readRecords[..]) == Apply(cfg, old(View()), Event.Record(c, d)).readRecs;
    }

    /** Any interleaving of the threads. */
    method Run(evs: seq<Event>)
      requires Valid() && Admissible(cfg, View(), evs)
      modifies this, begRecords, endRecords, readRecords
      ensures Valid() && View() == Exec(cfg, old(View()), evs)
    {
      for k := 0 to |evs|
        invariant Valid() && Admissible(cfg, View(), evs[k..])
        invariant Exec(cfg, View(), evs[k..]) == Exec(cfg, old(View()), evs)
      {
        assert evs[k..][1..] == evs[k + 1..];
        match evs[k] {
          case MainStep => MainStep();
          case BeginWrite(p, d) => BeginWrite(p, d);
          case PutMessage(p) => PutMessage(p);
          case EndWrite(p, d) => EndWrite(p, d);
          case EndProducer(p) => EndProducer(p);
          case TakeMessage(c) => TakeMessage(c);
          case Record(c, d) => RecordRead(c, d);
        }
      }
    }
  }
}
