/** benchmark_wr with its blocks and counters updated in place, and the report of a run. */
module GoRun {
  import opened Sequences
  import opened WorkSlices
  import opened GoHarness
  import opened GoSafety
  import opened GoClock
  import GoShutdown
  import opened Quantile
  import opened LatencyReport
  import opened QuantileRows

  /** Timestamp i of every block. */
  function Column(blocks: Blocks, i: nat): (ts: seq<Option<int>>)
    requires forall j :: 0 <= j < |blocks| ==> i < |blocks[j].ts|
    ensures |ts| == |blocks|
  {
    seq(|blocks|, j requires 0 <= j < |blocks| => blocks[j].ts[i])
  }

  class BenchmarkWr {
    ghost const cfg: Config
    const plans: Plans
    const cntConsumer: nat
    const blocks: array<LatencyBlock>
    const consumerReadNum: array<nat>
    var main: MainPc
    var producers: seq<Producer>
    var consumers: seq<Consumer>
    var consumerReady: nat
    var now: int

    ghost predicate Valid()
      reads this, blocks, consumerReadNum
    {
      && cfg.plans == plans && cfg.consumers == cntConsumer
      && blocks.Length == cfg.total && consumerReadNum.Length == cntConsumer
      && (forall j :: 0 <= j < blocks.Length ==> |blocks[j].ts| == 8)
      && (forall j :: 0 <= j < blocks.Length && blocks[j].ts[0].Some? ==> blocks[j].idx == j)
    }

    ghost function View(): State
      requires Valid()
      reads this, blocks, consumerReadNum
    {
      State(main, producers, consumers, consumerReady, consumerReadNum[..], now,
            Column(blocks[..], 0), Column(blocks[..], 1), Column(blocks[..], 2))
    }

    constructor (loops: nat, cntPerLoop: nat, cntProducer: nat, cntConsumer: nat, start: int)
      requires cntProducer >= 1
      ensures Valid() && fresh(blocks) && fresh(consumerReadNum)
      ensures cfg == Config(GoPlans(loops, cntPerLoop, cntProducer), cntConsumer, loops * cntPerLoop)
      ensures View() == InitialState(cfg, start)
    {
      cfg := Config(GoPlans(loops, cntPerLoop, cntProducer), cntConsumer, loops * cntPerLoop);
      plans := GoPlans(loops, cntPerLoop, cntProducer);
      this.cntConsumer := cntConsumer;
      blocks := new LatencyBlock[loops * cntPerLoop](_ => LatencyBlock(0, seq(8, _ => None)));
      consumerReadNum := new nat[cntConsumer](_ => 0);
      main := ReadyLoop;
      producers := seq(cntProducer, _ => Unspawned);
      consumers := seq(cntConsumer, _ => Fresh);
      consumerReady, now := 0, start;
      new;
      ghost var s := InitialState(cfg, start);
      assert View().ts0 == s.ts0 && View().ts1 == s.ts1 && View().ts2 == s.ts2;
      assert View().readNum == s.readNum;
    }

    /** Main's reaction to a value received from c_signal, in its ready loop and in its join loop. */
    method Receive(tmp: nat)
      requires Receives(main) && cfg.plans == plans && cfg.consumers == cntConsumer
      modifies this`main
      ensures main == OnSignal(cfg, old(main), tmp)
    {
      if main.ReadyLoop? {
        if tmp == cntConsumer { main := Spawning(0); }
      } else {
        var pc, cc := main.pc, main.cc;
        if tmp == 1 {
          main := if pc + 1 == |plans| then SendingNil(pc + 1, cc, 0) else Joining(pc + 1, cc);
        } else if tmp == 2 {
          main := if cc + 1 == cntConsumer then Done else Joining(pc, cc + 1);
        }
      }
    }

    /** Writes one timestamp of one block. */
    method SetTs(id: nat, i: nat, t: int)
      requires Valid() && id < blocks.Length && i < 3 && (i == 0 ==> blocks[id].idx == id)
      modifies blocks
      ensures Valid()
      ensures Column(blocks[..], i) == old(Column(blocks[..], i))[id := Some(t)]
      ensures forall j: nat :: j < 3 && j != i ==> Column(blocks[..], j) == old(Column(blocks[..], j))
      ensures blocks[id].idx == old(blocks[id].idx)
    {
      blocks[id] := blocks[id].(ts := blocks[id].ts[i := Some(t)]);
    }

    method AddReady(c: nat)
      requires Valid() && Enabled(cfg, View(), Event.AddReady(c))
      modifies this`consumerReady, this`consumers
      ensures Valid() && View() == Apply(cfg, old(View()), Event.AddReady(c))
    {
      consumerReady := consumerReady + 1;
      consumers := consumers[c := Consumer.SendReady(consumerReady)];
    }

    method SignalReady(c: nat)
      requires Valid() && Enabled(cfg, View(), Event.SignalReady(c))
      modifies this`main, this`consumers
      ensures Valid() && View() == Apply(cfg, old(View()), Event.SignalReady(c))
    {
      var v := consumers[c].v;
      Receive(v);
      consumers := consumers[c := Receiving(v, 0)];
    }

    method SpawnProducer()
      requires Valid() && Enabled(cfg, View(), Event.Spawn)
      modifies this`main, this`producers
      ensures Valid() && View() == Apply(cfg, old(View()), Event.Spawn)
    {
      var i := main.i;
      producers := producers[i := Next(0)];
      main := if i + 1 == |producers| then Joining(0, 0) else Spawning(i + 1);
    }

    method BeginSend(p: nat, d: nat)
      requires Valid() && Enabled(cfg, View(), Event.Begin(p, d))
      modifies this`now, this`producers, blocks
      ensures Valid() && View() == Apply(cfg, old(View()), Event.Begin(p, d))
      ensures var id := IdOf(cfg.plans, p, old(producers)[p].k); blocks[id].idx == id
    {
      var k := producers[p].k;
      var id := IdOf(plans, p, k);
      now := now + d;
      blocks[id] := blocks[id].(idx := id);
      assert Column(blocks[..], 0) == old(Column(blocks[..], 0));
      assert Column(blocks[..], 1) == old(Column(blocks[..], 1));
      assert Column(blocks[..], 2) == old(Column(blocks[..], 2));
      SetTs(id, 0, now);
      producers := producers[p := Stamped(k)];
    }

    method DeliverBlock(p: nat, c: nat)
      requires Valid() && Enabled(cfg, View(), Event.Deliver(p, c))
      modifies this`producers, this`consumers
      ensures Valid() && View() == Apply(cfg, old(View()), Event.Deliver(p, c))
    {
      var k, w := producers[p].k, consumers[c];
      producers, consumers := producers[p := Sent(k)], consumers[c := Got(w.v, w.num, p, k)];
    }

    method EndSend(p: nat, d: nat)
      requires Valid() && Enabled(cfg, View(), Event.EndSend(p, d))
      modifies this`now, this`producers, blocks
      ensures Valid() && View() == Apply(cfg, old(View()), Event.EndSend(p, d))
    {
      var k := producers[p].k;
      now := now + d;
      SetTs(IdOf(plans, p, k), 1, now);
      producers := producers[p := Next(k + 1)];
    }

    method SignalProducer(p: nat)
      requires Valid() && Enabled(cfg, View(), Event.SignalProducer(p))
      modifies this`main, this`producers
      ensures Valid() && View() == Apply(cfg, old(View()), Event.SignalProducer(p))
    {
      Receive(1);
      producers := producers[p := Finished(producers[p].k)];
    }

    method SendNil(c: nat)
      requires Valid() && Enabled(cfg, View(), Event.SendNil(c))
      modifies this`main, this`consumers
      ensures Valid() && View() == Apply(cfg, old(View()), Event.SendNil(c))
    {
      var w, m := consumers[c], main;
      consumers := consumers[c := Leaving(w.v, w.num)];
      main := if m.i + 1 == cntConsumer then Joining(m.pc, m.cc) else SendingNil(m.pc, m.cc, m.i + 1);
    }

    method StampBlock(c: nat, d: nat)
      requires Valid() && Enabled(cfg, View(), Event.Stamp(c, d))
      modifies this`now, this`consumers, blocks
      ensures Valid() && View() == Apply(cfg, old(View()), Event.Stamp(c, d))
    {
      var w := consumers[c];
      now := now + d;
      SetTs(IdOf(plans, w.p, w.k), 2, now);
      consumers := consumers[c := Receiving(w.v, w.num + 1)];
    }

    method PublishCount(c: nat)
      requires Valid() && Enabled(cfg, View(), Event.Publish(c))
      modifies this`consumers, consumerReadNum
      ensures Valid() && View() == Apply(cfg, old(View()), Event.Publish(c))
    {
      var w := consumers[c];
      consumerReadNum[w.v - 1] := w.num;
      consumers := consumers[c := SendDone(w.v)];
      assert consumerReadNum[..] == old(consumerReadNum[..])[w.v - 1 := w.num];
    }

    method SignalConsumer(c: nat)
      requires Valid() && Enabled(cfg, View(), Event.SignalConsumer(c))
      modifies this`main, this`consumers
      ensures Valid() && View() == Apply(cfg, old(View()), Event.SignalConsumer(c))
    {
      Receive(2);
      consumers := consumers[c := Gone(consumers[c].v)];
    }

    method Step(e: Event)
      requires Valid() && Enabled(cfg, View(), e)
      modifies this, blocks, consumerReadNum
      ensures Valid() && View() == Apply(cfg, old(View()), e)
    {
      match e {
        case AddReady(c) => AddReady(c);
        case SignalReady(c) => SignalReady(c);
        case Spawn => SpawnProducer();
        case Begin(p, d) => BeginSend(p, d);
        case Deliver(p, c) => DeliverBlock(p, c);
        case EndSend(p, d) => EndSend(p, d);
        case SignalProducer(p) => SignalProducer(p);
        case SendNil(c) => SendNil(c);
        case Stamp(c, d) => StampBlock(c, d);
        case Publish(c) => PublishCount(c);
        case SignalConsumer(c) => SignalConsumer(c);
      }
    }

    /** Any interleaving of the goroutines. */
    method Run(evs: seq<Event>)
      requires Valid() && Admissible(cfg, View(), evs)
      modifies this, blocks, consumerReadNum
      ensures Valid() && View() == Exec(cfg, old(View()), evs)
    {
      for k := 0 to |evs|
        invariant Valid() && Admissible(cfg, View(), evs[k..])
        invariant Exec(cfg, View(), evs[k..]) == Exec(cfg, old(View()), evs)
      {
        assert evs[k..][1..] == evs[k + 1..];
        Step(evs[k]);
      }
    }
  }

  /** All blocks have their three timestamps, the first before the others, none after t1. */
  predicate AllStamped(blocks: Blocks, t1: int) {
    forall j :: 0 <= j < |blocks| ==>
      && |blocks[j].ts| == 8
      && After(blocks[j].ts[0], blocks[j].ts[1], t1) && After(blocks[j].ts[0], blocks[j].ts[2], t1)
  }

  /** A row that does not decrease, starts at the smallest of the data and ends at the largest. */
  ghost predicate SortedRow(row: seq<int>, data: seq<int>) {
    && |row| > 0 && Ascending(row)
    && row[0] in data && row[|row| - 1] in data
    && (forall v :: v in data ==> row[0] <= v <= row[|row| - 1])
  }

  lemma SortedDataGivesSortedRow(data: seq<int>, step: nat)
    requires step > 0 && 1 <= |data| <= MAX_COUNT
    ensures var d := Sorted(data); SortedRow(RowOf(d, step) + [d[|d| - 1]], data)
  {
    SortedRowOrdered(data, step);
  }

  /** A row of samples of data, closed by its last element. */
  ghost predicate SamplesAndLast(row: seq<int>, data: seq<int>, step: nat) {
    && |row| > 0 && data != []
    && AreSamples(row[..|row| - 1], data, step) && row[|row| - 1] == data[|data| - 1]
  }

  lemma RowHasSamplesAndLast(data: seq<int>, step: nat)
    requires step > 0 && 1 <= |data| <= MAX_COUNT
    ensures SamplesAndLast(RowOf(data, step) + [data[|data| - 1]], data, step)
  {
    RowSamples(data, step);
    var row := RowOf(data, step) + [data[|data| - 1]];
    assert row[..|row| - 1] == RowOf(data, step);
  }

  /** The elapsed times are nonnegative, and the true differences unless a Duration cannot hold them. */
  ghost predicate TrueElapsed(data: seq<int>, blocks: Blocks, tsEnd: nat) {
    && |data| == |blocks|
    && forall j :: 0 <= j < |data| ==>
         && tsEnd < |blocks[j].ts| && blocks[j].ts[0].Some? && blocks[j].ts[tsEnd].Some?
         && var elapsed := blocks[j].ts[tsEnd].value - blocks[j].ts[0].value;
            0 <= data[j] <= elapsed && (data[j] < TWO_TO_THE_63 - 1 ==> data[j] == elapsed)
  }

  lemma StampedElapsed(blocks: Blocks, t1: int, tsEnd: nat)
    requires AllStamped(blocks, t1) && (tsEnd == 1 || tsEnd == 2)
    ensures TrueElapsed(GoElapsed(blocks, 0, tsEnd), blocks, tsEnd)
  {
  }

  /** The two rows of a pair of timestamps: by index as they are, and sorted from smallest to largest. */
  ghost predicate ReportsBlocks(blocks: Blocks, tsEnd: nat, step: nat,
                                byIdx: Option<seq<int>>, sorted: Option<seq<int>>)
    requires step > 0 && 1 <= |blocks| <= MAX_COUNT
  {
    var data := GoElapsed(blocks, 0, tsEnd);
    && TrueElapsed(data, blocks, tsEnd)
    && byIdx == Some(RowOf(data, step) + [data[|data| - 1]]) && SamplesAndLast(byIdx.value, data, step)
    && sorted.Some? && |sorted.value| == |Columns(0, step)| + 1 && SortedRow(sorted.value, data)
    && Ascending(Sorted(data)) && multiset(Sorted(data)) == multiset(data)
    && SamplesAndLast(sorted.value, Sorted(data), step)
  }

  /** The rows of a run whose blocks are all stamped, for either pair of timestamps. */
  lemma StampedBlocksReport(blocks: Blocks, t1: int, tsEnd: nat, step: nat)
    requires AllStamped(blocks, t1) && 1 <= |blocks| <= MAX_COUNT && (tsEnd == 1 || tsEnd == 2) && step > 0
    ensures ReportsBlocks(blocks, tsEnd, step, GoReportBody(blocks, 0, tsEnd, step, false),
                          GoReportBody(blocks, 0, tsEnd, step, true))
  {
    StampedElapsed(blocks, t1, tsEnd);
    var data := GoElapsed(blocks, 0, tsEnd);
    SortedDataGivesSortedRow(data, step);
    SortedSorts(data);
    RowHasSamplesAndLast(data, step);
    RowHasSamplesAndLast(Sorted(data), step);
  }

  /** The two rows that benchmark_wr writes for one pair of timestamps. */
  method ReportPair(blocks: array<LatencyBlock>, tsEnd: nat, step: nat, ghost t1: int)
    returns (byIdx: Option<seq<int>>, sorted: Option<seq<int>>)
    requires AllStamped(blocks[..], t1) && blocks.Length <= MAX_COUNT && (tsEnd == 1 || tsEnd == 2) && step > 0
    ensures blocks.Length == 0 ==> byIdx == sorted == None
    ensures blocks.Length > 0 ==> ReportsBlocks(blocks[..], tsEnd, step, byIdx, sorted)
  {
    if blocks.Length > 0 { StampedBlocksReport(blocks[..], t1, tsEnd, step); }
    byIdx := GenThreadLantencyReportsBody(blocks, 0, tsEnd, step, false);
    sorted := GenThreadLantencyReportsBody(blocks, 0, tsEnd, step, true);
  }

  /** The index and the timestamps of a block: each is the clock just after the step that took it. */
  ghost predicate StampedBySteps(b: LatencyBlock, cfg: Config, start: int, evs: seq<Event>, p: nat, k: nat,
                                 i: nat, j: nat, l: nat)
  {
    var s0 := InitialState(cfg, start);
    && InPlan(cfg.plans, p, k) && b.idx == IdOf(cfg.plans, p, k) && |b.ts| == 8
    && Begins(cfg, s0, evs, i, p, k) && b.ts[0] == Some(ClockAfter(start, evs, i))
    && Ends(cfg, s0, evs, j, p, k) && b.ts[1] == Some(ClockAfter(start, evs, j))
    && Receipt(cfg, s0, evs, l, p, k) && b.ts[2] == Some(ClockAfter(start, evs, l))
  }

  ghost predicate BlockStamped(b: LatencyBlock, cfg: Config, start: int, evs: seq<Event>, p: nat, k: nat) {
    exists i, j, l :: StampedBySteps(b, cfg, start, evs, p, k, i, j, l)
  }

  lemma ClockedBlock(b: BenchmarkWr, start: int, evs: seq<Event>, p: nat, k: nat)
    requires b.Valid() && Admissible(b.cfg, InitialState(b.cfg, start), evs)
    requires b.View() == Exec(b.cfg, InitialState(b.cfg, start), evs) && IsClocked(b.cfg, start, evs, p, k)
    ensures InPlan(b.cfg.plans, p, k) && 0 <= IdOf(b.cfg.plans, p, k) < b.blocks.Length
    ensures BlockStamped(b.blocks[IdOf(b.cfg.plans, p, k)], b.cfg, start, evs, p, k)
  {
    var i, j, l :| Clocked(b.cfg, start, evs, p, k, i, j, l);
    var id := IdOf(b.cfg.plans, p, k);
    assert b.View().ts0[id] == b.blocks[id].ts[0] && b.View().ts1[id] == b.blocks[id].ts[1];
    assert b.View().ts2[id] == b.blocks[id].ts[2];
    assert StampedBySteps(b.blocks[id], b.cfg, start, evs, p, k, i, j, l);
  }

  /**
   The state that a run under the condition leaves: every block counted, each consumer's number that of the
   blocks handed over to it, and every block stamped by the steps that sent and received it.
   */
  ghost predicate RunFinished(b: BenchmarkWr, start: int, evs: seq<Event>)
    reads b, b.blocks, b.consumerReadNum
  {
    && b.Valid() && SumBy(b.consumerReadNum[..], Count) == b.cfg.total == b.blocks.Length
    && (forall c :: 0 <= c < b.cfg.consumers ==> GoShutdown.HasCounted(b.View(), c, Deliveries(evs, c)))
    && AllStamped(b.blocks[..], b.now)
    && (forall p: nat, k: nat :: InPlan(b.cfg.plans, p, k) ==>
          && 0 <= IdOf(b.cfg.plans, p, k) < b.blocks.Length
          && BlockStamped(b.blocks[IdOf(b.cfg.plans, p, k)], b.cfg, start, evs, p, k))
  }

  /** From the end of a ready loop in which all values were received, any run to the end of the join loop. */
  method FinishRun(b: BenchmarkWr, ghost start: int, ghost evs: seq<Event>, more: seq<Event>)
    requires b.Valid() && ValidConfig(b.cfg)
    requires Admissible(b.cfg, InitialState(b.cfg, start), evs)
    requires b.View() == Exec(b.cfg, InitialState(b.cfg, start), evs)
    requires GoShutdown.ReadyLoopEnded(b.View()) && !GoShutdown.Pending(b.View())
    requires Admissible(b.cfg, b.View(), more) && Exec(b.cfg, b.View(), more).main.Done?
    modifies b, b.blocks, b.consumerReadNum
    ensures RunFinished(b, start, evs + more)
  {
    GoShutdown.CleanRunDeliversAll(b.cfg, start, evs, more);
    b.Run(more);
    ghost var s := b.View();
    ExecAppend(b.cfg, InitialState(b.cfg, start), evs, more);
    forall p: nat, k: nat | InPlan(b.cfg.plans, p, k)
      ensures 0 <= IdOf(b.cfg.plans, p, k) < b.blocks.Length
           && BlockStamped(b.blocks[IdOf(b.cfg.plans, p, k)], b.cfg, start, evs + more, p, k)
    {
      ClockedBlock(b, start, evs + more, p, k);
    }
    forall j | 0 <= j < b.blocks.Length
      ensures After(b.blocks[j].ts[0], b.blocks[j].ts[1], b.now) && After(b.blocks[j].ts[0], b.blocks[j].ts[2], b.now)
    {
      assert s.ts0[j] == b.blocks[j].ts[0] && s.ts1[j] == b.blocks[j].ts[1] && s.ts2[j] == b.blocks[j].ts[2];
    }
  }

  /**
   From the end of a ready loop in which all values were received, any run to the end of the join loop: the
   blocks are all counted and all stamped, and the four rows report them.
   */
  method FinishAndReport(b: BenchmarkWr, ghost start: int, ghost evs: seq<Event>, more: seq<Event>, step: nat)
    returns (writeRow: Option<seq<int>>, writeSorted: Option<seq<int>>,
             readRow: Option<seq<int>>, readSorted: Option<seq<int>>)
    requires b.Valid() && ValidConfig(b.cfg) && b.cfg.total <= MAX_COUNT && step > 0
    requires Admissible(b.cfg, InitialState(b.cfg, start), evs)
    requires b.View() == Exec(b.cfg, InitialState(b.cfg, start), evs)
    requires GoShutdown.ReadyLoopEnded(b.View()) && !GoShutdown.Pending(b.View())
    requires Admissible(b.cfg, b.View(), more) && Exec(b.cfg, b.View(), more).main.Done?
    modifies b, b.blocks, b.consumerReadNum
    ensures RunFinished(b, start, evs + more)
    ensures b.cfg.total == 0 ==> writeRow == writeSorted == readRow == readSorted == None
    ensures b.cfg.total > 0 ==> ReportsBlocks(b.blocks[..], 1, step, writeRow, writeSorted)
    ensures b.cfg.total > 0 ==> ReportsBlocks(b.blocks[..], 2, step, readRow, readSorted)
  {
    FinishRun(b, start, evs, more);
    writeRow, writeSorted := ReportPair(b.blocks, 1, step, b.now);
    readRow, readSorted := ReportPair(b.blocks, 2, step, b.now);
  }
}
