/** Every step of the Java harness keeps its invariant. */
module JavaSafety {
  import opened Sequences
  import opened WorkSlices
  import opened JavaHarness

  lemma StartKeepsPhase(cfg: Config, s: State)
    requires Phase(cfg, s) && MainEnabled(cfg, s) && (s.main.StartConsumers? || s.main.StartProducers?)
    ensures Phase(cfg, ApplyMain(cfg, s))
  {
  }

  lemma JoinKeepsPhase(cfg: Config, s: State)
    requires Phase(cfg, s) && MainEnabled(cfg, s) && !s.main.StartConsumers? && !s.main.StartProducers?
    ensures Phase(cfg, ApplyMain(cfg, s))
  {
    var s' := ApplyMain(cfg, s);
    assert s'.producers == s.producers && s'.consumers == s.consumers;
  }

  lemma MainKeepsPhase(cfg: Config, s: State)
    requires Phase(cfg, s) && MainEnabled(cfg, s)
    ensures Phase(cfg, ApplyMain(cfg, s))
  {
    if s.main.StartConsumers? || s.main.StartProducers? {
      StartKeepsPhase(cfg, s);
    } else {
      JoinKeepsPhase(cfg, s);
    }
  }

  lemma ProducerKeepsPhase(cfg: Config, s: State, e: Event)
    requires Phase(cfg, s) && Enabled(cfg, s, e)
    requires e.BeginWrite? || e.PutMessage? || e.EndWrite? || e.EndProducer?
    ensures Phase(cfg, Apply(cfg, s, e))
  {
    var s' := Apply(cfg, s, e);
    assert forall p :: 0 <= p < |s.producers| && p != e.p ==> s'.producers[p] == s.producers[p];
  }

  lemma ConsumerKeepsPhase(cfg: Config, s: State, e: Event)
    requires Phase(cfg, s) && Enabled(cfg, s, e) && (e.TakeMessage? || e.Record?)
    ensures Phase(cfg, Apply(cfg, s, e))
  {
    var s' := Apply(cfg, s, e);
    assert forall c :: 0 <= c < |s.consumers| && c != e.c ==> s'.consumers[c] == s.consumers[c];
  }

  lemma StepKeepsPhase(cfg: Config, s: State, e: Event)
    requires Phase(cfg, s) && Enabled(cfg, s, e)
    requires forall j :: 0 <= j < |s.queue| && s.queue[j].EndMarker? ==> ProducersJoined(s.main)
    ensures Phase(cfg, Apply(cfg, s, e))
  {
    if e.MainStep? {
      MainKeepsPhase(cfg, s);
    } else if e.TakeMessage? || e.Record? {
      ConsumerKeepsPhase(cfg, s, e);
    } else {
      ProducerKeepsPhase(cfg, s, e);
    }
  }

  lemma AppendKeepsFifo(cfg: Config, s: State, s': State, m: Message)
    requires Fifo(cfg, s) && |s.queue| < cfg.capacity
    requires s'.puts == s.puts + [m] && s'.queue == s.queue + [m] && s'.takes == s.takes
    ensures Fifo(cfg, s')
  {
  }

  lemma TakeKeepsFifo(cfg: Config, s: State, s': State, c: nat)
    requires Fifo(cfg, s) && s.queue != []
    requires s'.puts == s.puts && s'.queue == s.queue[1..] && s'.takes == s.takes + [Taking(c, s.queue[0])]
    ensures Fifo(cfg, s')
  {
  }

  lemma StepKeepsFifo(cfg: Config, s: State, e: Event)
    requires Fifo(cfg, s) && Enabled(cfg, s, e)
    ensures Fifo(cfg, Apply(cfg, s, e))
  {
    var s' := Apply(cfg, s, e);
    if e.PutMessage? {
      AppendKeepsFifo(cfg, s, s', Data(e.p, s.producers[e.p].next));
    } else if e.TakeMessage? {
      TakeKeepsFifo(cfg, s, s', e.c);
    } else if e.MainStep? && s.main.Completing? && s.main.i < |s.consumers| {
      AppendKeepsFifo(cfg, s, s', EndMarker);
    } else {
      assert s'.puts == s.puts && s'.queue == s.queue && s'.takes == s.takes;
    }
  }

  lemma StepKeepsPutLog(cfg: Config, s: State, e: Event)
    requires Phase(cfg, s) && PutLog(cfg, s) && Enabled(cfg, s, e)
    requires Shape(cfg, Apply(cfg, s, e))
    ensures PutLog(cfg, Apply(cfg, s, e))
  {
    var s' := Apply(cfg, s, e);
    if e.PutMessage? {
      PutKeepsPutLog(cfg, s, e.p);
    } else {
      assert forall p :: 0 <= p < |s.producers| ==> Sent(s'.producers[p]) == Sent(s.producers[p]);
      if e.MainStep? && s.main.Completing? && s.main.i < |s.consumers| {
        MarkerKeepsPutLog(cfg, s);
      } else {
        assert s'.puts == s.puts && (ProducersJoined(s.main) ==> ProducersJoined(s'.main));
      }
    }
  }

  lemma InAppended(puts: seq<Message>, m: Message, n: Message)
    ensures n in puts + [m] <==> n in puts || n == m
  {
    assert (puts + [m])[|puts|] == m;
    if n in puts {
      var j :| 0 <= j < |puts| && puts[j] == n;
      assert (puts + [m])[j] == n;
    }
  }

  /** An end marker at the end keeps the order of each producer's messages, and of markers after them. */
  lemma MarkerKeepsOrder(puts: seq<Message>)
    requires forall i, j :: 0 <= i < j < |puts| && SameProducer(puts[i], puts[j]) ==> puts[i].k < puts[j].k
    requires forall i, j :: 0 <= i < j < |puts| && puts[i].EndMarker? ==> puts[j].EndMarker?
    ensures var after := puts + [EndMarker];
      && (forall i, j :: 0 <= i < j < |after| && SameProducer(after[i], after[j]) ==> after[i].k < after[j].k)
      && (forall i, j :: 0 <= i < j < |after| && after[i].EndMarker? ==> after[j].EndMarker?)
  {
  }

  lemma MarkerKeepsPutLog(cfg: Config, s: State)
    requires Shape(cfg, s) && PutLog(cfg, s) && MainEnabled(cfg, s)
    requires s.main.Completing? && s.main.i < |s.consumers|
    ensures PutLog(cfg, ApplyMain(cfg, s))
  {
    var s' := ApplyMain(cfg, s);
    MarkerKeepsOrder(s.puts);
    forall p, k: nat | 0 <= p < |s'.producers| && k < Sent(s'.producers[p])
      ensures Data(p, k) in s'.puts
    {
      InAppended(s.puts, EndMarker, Data(p, k));
    }
  }

  lemma PutKeepsSent(cfg: Config, s: State, p: nat)
    requires Phase(cfg, s) && PutLog(cfg, s) && Enabled(cfg, s, PutMessage(p))
    ensures var s' := Apply(cfg, s, PutMessage(p));
      forall q, k: nat :: 0 <= q < |s'.producers| && k < Sent(s'.producers[q]) ==> Data(q, k) in s'.puts
  {
    var s' := Apply(cfg, s, PutMessage(p));
    var m := Data(p, s.producers[p].next);
    forall q, k: nat | 0 <= q < |s'.producers| && k < Sent(s'.producers[q])
      ensures Data(q, k) in s'.puts
    {
      InAppended(s.puts, m, Data(q, k));
    }
  }

  /** A producer's next message comes after all it has put before. */
  lemma PutKeepsOrder(cfg: Config, s: State, p: nat)
    requires Phase(cfg, s) && PutLog(cfg, s) && Enabled(cfg, s, PutMessage(p))
    ensures var puts := Apply(cfg, s, PutMessage(p)).puts;
      && (forall i, j :: 0 <= i < j < |puts| && SameProducer(puts[i], puts[j]) ==> puts[i].k < puts[j].k)
      && EndMarker !in puts
  {
    assert EndMarker !in s.puts;
    InAppended(s.puts, Data(p, s.producers[p].next), EndMarker);
  }

  lemma PutKeepsPutLog(cfg: Config, s: State, p: nat)
    requires Phase(cfg, s) && PutLog(cfg, s) && Enabled(cfg, s, PutMessage(p))
    ensures PutLog(cfg, Apply(cfg, s, PutMessage(p)))
  {
    var s' := Apply(cfg, s, PutMessage(p));
    PutKeepsOrder(cfg, s, p);
    PutKeepsSent(cfg, s, p);
    assert forall j :: 0 <= j < |s'.puts| ==> s'.puts[j] in s'.puts;
    assert forall q :: 0 <= q < |s.producers| && q != p ==> s'.producers[q] == s.producers[q];
    assert Sent(s'.producers[p]) == Sent(s.producers[p]) + 1;
  }

  lemma PutKeepsCounts(cfg: Config, s: State, p: nat)
    requires Shape(cfg, s) && Counts(cfg, s) && Enabled(cfg, s, PutMessage(p))
    ensures Counts(cfg, Apply(cfg, s, PutMessage(p)))
  {
    var s' := Apply(cfg, s, PutMessage(p));
    SumByUpdate(s.producers, p, s'.producers[p], Sent);
    SumByAppend(s.queue, Data(p, s.producers[p].next), IsMarker);
    SumByAppend(s.queue, Data(p, s.producers[p].next), IsData);
  }

  lemma TakeKeepsCounts(cfg: Config, s: State, c: nat)
    requires Shape(cfg, s) && Counts(cfg, s) && Enabled(cfg, s, TakeMessage(c))
    ensures Counts(cfg, Apply(cfg, s, TakeMessage(c)))
  {
    var s' := Apply(cfg, s, TakeMessage(c));
    SumByUpdate(s.consumers, c, s'.consumers[c], HasExited);
    SumByUpdate(s.consumers, c, s'.consumers[c], ReadOrHeld);
    SumByAppend(s.takes, Taking(c, s.queue[0]), MarkerTake);
    SumByAppend(s.takes, Taking(c, s.queue[0]), DataTake);
  }

  lemma RecordKeepsCounts(cfg: Config, s: State, c: nat, d: nat)
    requires Shape(cfg, s) && Counts(cfg, s) && Enabled(cfg, s, Record(c, d))
    ensures Counts(cfg, Apply(cfg, s, Record(c, d)))
  {
    var s' := Apply(cfg, s, Record(c, d));
    SumByUpdate(s.consumers, c, s'.consumers[c], HasExited);
    SumByUpdate(s.consumers, c, s'.consumers[c], ReadOrHeld);
  }

  lemma ProducerKeepsCounts(cfg: Config, s: State, e: Event)
    requires Shape(cfg, s) && Counts(cfg, s) && Enabled(cfg, s, e)
    requires e.BeginWrite? || e.EndWrite? || e.EndProducer?
    ensures Counts(cfg, Apply(cfg, s, e))
  {
    SumByUpdate(s.producers, e.p, Apply(cfg, s, e).producers[e.p], Sent);
  }

  lemma StepKeepsCounts(cfg: Config, s: State, e: Event)
    requires Phase(cfg, s) && Counts(cfg, s) && Enabled(cfg, s, e)
    requires Shape(cfg, Apply(cfg, s, e))
    ensures Counts(cfg, Apply(cfg, s, e))
  {
    match e
    case MainStep => MainKeepsCounts(cfg, s);
    case PutMessage(p) => PutKeepsCounts(cfg, s, p);
    case TakeMessage(c) => TakeKeepsCounts(cfg, s, c);
    case Record(c, d) => RecordKeepsCounts(cfg, s, c, d);
    case _ => ProducerKeepsCounts(cfg, s, e);
  }

  lemma MainKeepsCounts(cfg: Config, s: State)
    requires Phase(cfg, s) && Counts(cfg, s) && MainEnabled(cfg, s)
    requires Shape(cfg, ApplyMain(cfg, s))
    ensures Counts(cfg, ApplyMain(cfg, s))
  {
    var s' := ApplyMain(cfg, s);
    match s.main {
      case StartConsumers(i) =>
        if i < |s.consumers| {
          SumByUpdate(s.consumers, i, s'.consumers[i], HasExited);
          SumByUpdate(s.consumers, i, s'.consumers[i], ReadOrHeld);
        }
      case StartProducers(i) =>
        if i < |s.producers| { SumByUpdate(s.producers, i, s'.producers[i], Sent); }
      case Completing(i) =>
        if i < |s.consumers| {
          SumByAppend(s.queue, EndMarker, IsMarker);
          SumByAppend(s.queue, EndMarker, IsData);
        }
      case _ =>
    }
  }

  /** A new entry of the log belongs to one consumer and leaves the others' messages alone. */
  lemma TakenByAppend(takes: seq<Taking>, t: Taking, c: nat)
    ensures TakenBy(takes + [t], c) == TakenBy(takes, c) + if t.c == c then [t.msg] else []
  {
    assert (takes + [t])[..|takes|] == takes;
  }

  /** Of a consumer that takes the head of the queue. */
  lemma TakeKeepsTaker(cfg: Config, s: State, c: nat)
    requires Shape(cfg, s) && Takers(cfg, s) && Enabled(cfg, s, TakeMessage(c))
    ensures var s' := Apply(cfg, s, TakeMessage(c)); TakerOk(s'.consumers[c], TakenBy(s'.takes, c))
  {
    assert TakerOk(s.consumers[c], TakenBy(s.takes, c));
    TakenByAppend(s.takes, Taking(c, s.queue[0]), c);
  }

  lemma TakeKeepsTakers(cfg: Config, s: State, c: nat)
    requires Shape(cfg, s) && Takers(cfg, s) && Enabled(cfg, s, TakeMessage(c))
    ensures Takers(cfg, Apply(cfg, s, TakeMessage(c)))
  {
    var s' := Apply(cfg, s, TakeMessage(c));
    forall b: nat | b < |s'.consumers| ensures TakerOk(s'.consumers[b], TakenBy(s'.takes, b)) {
      if b == c {
        TakeKeepsTaker(cfg, s, c);
      } else {
        TakenByAppend(s.takes, Taking(c, s.queue[0]), b);
      }
    }
  }

  lemma StepKeepsTakers(cfg: Config, s: State, e: Event)
    requires Phase(cfg, s) && Takers(cfg, s) && Enabled(cfg, s, e)
    requires Shape(cfg, Apply(cfg, s, e))
    ensures Takers(cfg, Apply(cfg, s, e))
  {
    if e.TakeMessage? {
      TakeKeepsTakers(cfg, s, e.c);
    } else {
      var s' := Apply(cfg, s, e);
      assert s'.takes == s.takes;
      forall c: nat | c < |s'.consumers| ensures TakerOk(s'.consumers[c], TakenBy(s'.takes, c)) {
        assert TakerOk(s.consumers[c], TakenBy(s.takes, c));
      }
    }
  }

  // ----- Clock readings

  /** A begin time and a read time do not depend on the other fields of the state. */
  lemma FrameTimes(cfg: Config, t0: int, s: State, s': State)
    requires ValidConfig(cfg) && Phase(cfg, s) && Times(cfg, t0, s) && Shape(cfg, s')
    requires s'.begRecs == s.begRecs && s'.endRecs == s.endRecs && s'.readRecs == s.readRecs
    requires s'.takes == s.takes && s.now <= s'.now
    requires forall c, m :: HeldBy(s', m, c) <==> HeldBy(s, m, c)
    requires forall p :: 0 <= p < |s.producers| ==> s'.producers[p].next == s.producers[p].next
    requires forall p :: 0 <= p < |s.producers| && s.producers[p].pc.Put? ==>
      s'.producers[p].pc == s.producers[p].pc
    requires forall p :: 0 <= p < |s.producers| && (s'.producers[p].pc.Timed? || s'.producers[p].pc.Put?) ==>
      t0 <= s'.producers[p].pc.beg <= s'.now
    ensures Times(cfg, t0, s')
  {
    forall p: nat, k: nat | InPlan(cfg.plans, p, k) && k < s'.producers[p].next
      ensures WriteTimes(cfg, t0, s', p, k)
    {
      assert WriteTimes(cfg, t0, s, p, k);
    }
    forall p: nat, k: nat | InPlan(cfg.plans, p, k) && s'.readRecs[IdOf(cfg.plans, p, k)].Some?
      ensures ReadTime(cfg, s', p, k)
    {
      assert ReadTime(cfg, s, p, k);
    }
    forall p: nat, k: nat | InPlan(cfg.plans, p, k) && WasTaken(s', Data(p, k))
      ensures s'.readRecs[IdOf(cfg.plans, p, k)].Some? || IsHeld(s', Data(p, k))
    {
      assert WasTaken(s, Data(p, k));
      if IsHeld(s, Data(p, k)) {
        var c :| HeldBy(s, Data(p, k), c);
        assert HeldBy(s', Data(p, k), c);
      }
    }
    forall c | 0 <= c < |s'.consumers| && s'.consumers[c].pc.Holding? ensures WasTaken(s', s'.consumers[c].pc.msg) {
      assert HeldBy(s', s'.consumers[c].pc.msg, c);
      assert HeldBy(s, s'.consumers[c].pc.msg, c);
      assert WasTaken(s, s'.consumers[c].pc.msg);
    }
  }

  lemma EndWriteKeepsTimes(cfg: Config, t0: int, s: State, p: nat, d: nat)
    requires ValidConfig(cfg) && Phase(cfg, s) && Times(cfg, t0, s) && Enabled(cfg, s, EndWrite(p, d))
    ensures Times(cfg, t0, Apply(cfg, s, EndWrite(p, d)))
  {
    var s' := Apply(cfg, s, EndWrite(p, d));
    var n := s.producers[p].next;
    forall q: nat, k: nat | InPlan(cfg.plans, q, k) && (q != p || k != n)
      ensures s'.begRecs[IdOf(cfg.plans, q, k)] == s.begRecs[IdOf(cfg.plans, q, k)]
      ensures s'.endRecs[IdOf(cfg.plans, q, k)] == s.endRecs[IdOf(cfg.plans, q, k)]
    {
      assert IdOf(cfg.plans, q, k) != IdOf(cfg.plans, p, n);
    }
    forall q: nat, k: nat | InPlan(cfg.plans, q, k) && k < s'.producers[q].next
      ensures WriteTimes(cfg, t0, s', q, k)
    {
      if q != p || k != n { assert WriteTimes(cfg, t0, s, q, k); }
    }
    forall q: nat, k: nat | InPlan(cfg.plans, q, k) && s'.readRecs[IdOf(cfg.plans, q, k)].Some?
      ensures ReadTime(cfg, s', q, k)
    {
      assert ReadTime(cfg, s, q, k);
      assert BegOf(cfg, s', q, k) == BegOf(cfg, s, q, k);
    }
    SameHolders(cfg, t0, s, s');
  }

  /** Consumers and log unchanged: what was taken is still read or held. */
  lemma SameHolders(cfg: Config, t0: int, s: State, s': State)
    requires ValidConfig(cfg) && Phase(cfg, s) && Times(cfg, t0, s) && Shape(cfg, s')
    requires s'.consumers == s.consumers && s'.takes == s.takes && s'.readRecs == s.readRecs
    ensures forall p: nat, k: nat :: InPlan(cfg.plans, p, k) && WasTaken(s', Data(p, k)) ==>
      s'.readRecs[IdOf(cfg.plans, p, k)].Some? || IsHeld(s', Data(p, k))
    ensures forall c :: 0 <= c < |s'.consumers| && s'.consumers[c].pc.Holding? ==>
      WasTaken(s', s'.consumers[c].pc.msg)
  {
    assert forall m :: WasTaken(s', m) <==> WasTaken(s, m);
    forall m | IsHeld(s, m) ensures IsHeld(s', m) {
      var c :| HeldBy(s, m, c);
      assert HeldBy(s', m, c);
    }
  }

  lemma TakeKeepsTimes(cfg: Config, t0: int, s: State, c: nat)
    requires ValidConfig(cfg) && Phase(cfg, s) && Times(cfg, t0, s) && Enabled(cfg, s, TakeMessage(c))
    ensures Times(cfg, t0, Apply(cfg, s, TakeMessage(c)))
  {
    var s' := Apply(cfg, s, TakeMessage(c));
    var n := s.queue[0];
    assert s'.takes[|s.takes|] == Taking(c, n);
    assert forall b, m :: b != c ==> (HeldBy(s', m, b) <==> HeldBy(s, m, b));
    forall p: nat, k: nat | InPlan(cfg.plans, p, k) && k < s'.producers[p].next
      ensures WriteTimes(cfg, t0, s', p, k)
    {
      assert WriteTimes(cfg, t0, s, p, k);
    }
    forall p: nat, k: nat | InPlan(cfg.plans, p, k) && s'.readRecs[IdOf(cfg.plans, p, k)].Some?
      ensures ReadTime(cfg, s', p, k)
    {
      assert ReadTime(cfg, s, p, k);
    }
    forall p: nat, k: nat | InPlan(cfg.plans, p, k) && WasTaken(s', Data(p, k))
      ensures s'.readRecs[IdOf(cfg.plans, p, k)].Some? || IsHeld(s', Data(p, k))
    {
      if n == Data(p, k) {
        assert HeldBy(s', n, c);
      } else {
        var j :| 0 <= j < |s'.takes| && s'.takes[j].msg == Data(p, k);
        assert s.takes[j].msg == Data(p, k);
        assert WasTaken(s, Data(p, k));
        if IsHeld(s, Data(p, k)) {
          var b :| HeldBy(s, Data(p, k), b);
          assert HeldBy(s', Data(p, k), b);
        }
      }
    }
    forall b | 0 <= b < |s'.consumers| && s'.consumers[b].pc.Holding? ensures WasTaken(s', s'.consumers[b].pc.msg) {
      if b != c {
        assert WasTaken(s, s.consumers[b].pc.msg);
        var j :| 0 <= j < |s.takes| && s.takes[j].msg == s.consumers[b].pc.msg;
        assert s'.takes[j].msg == s.consumers[b].pc.msg;
      }
    }
  }

  lemma RecordKeepsTimes(cfg: Config, t0: int, s: State, c: nat, d: nat)
    requires ValidConfig(cfg) && Phase(cfg, s) && Fifo(cfg, s) && PutLog(cfg, s) && Times(cfg, t0, s)
    requires Enabled(cfg, s, Record(c, d))
    ensures Times(cfg, t0, Apply(cfg, s, Record(c, d)))
  {
    var s' := Apply(cfg, s, Record(c, d));
    forall p: nat, k: nat | InPlan(cfg.plans, p, k) && k < s'.producers[p].next
      ensures WriteTimes(cfg, t0, s', p, k)
    {
      assert WriteTimes(cfg, t0, s, p, k);
    }
    RecordKeepsReadTimes(cfg, t0, s, c, d);
    RecordKeepsHolders(cfg, t0, s, c, d);
  }

  lemma RecordKeepsReadTimes(cfg: Config, t0: int, s: State, c: nat, d: nat)
    requires ValidConfig(cfg) && Phase(cfg, s) && Fifo(cfg, s) && PutLog(cfg, s) && Times(cfg, t0, s)
    requires Enabled(cfg, s, Record(c, d))
    ensures var s' := Apply(cfg, s, Record(c, d));
      forall p: nat, k: nat :: InPlan(cfg.plans, p, k) && s'.readRecs[IdOf(cfg.plans, p, k)].Some? ==>
        ReadTime(cfg, s', p, k)
  {
    var s' := Apply(cfg, s, Record(c, d));
    var n := s.consumers[c].pc.msg;
    assert WasTaken(s, n);
    var i :| 0 <= i < |s.takes| && s.takes[i].msg == n;
    assert s.puts[i] == n;
    assert n.k < Sent(s.producers[n.p]);
    forall p: nat, k: nat | InPlan(cfg.plans, p, k) && s'.readRecs[IdOf(cfg.plans, p, k)].Some?
      ensures ReadTime(cfg, s', p, k)
    {
      if n == Data(p, k) {
        if k < s.producers[p].next { assert WriteTimes(cfg, t0, s, p, k); }
      } else {
        assert IdOf(cfg.plans, p, k) != IdOf(cfg.plans, n.p, n.k);
        assert ReadTime(cfg, s, p, k);
      }
    }
  }

  lemma RecordKeepsHolders(cfg: Config, t0: int, s: State, c: nat, d: nat)
    requires ValidConfig(cfg) && Phase(cfg, s) && Times(cfg, t0, s)
    requires Enabled(cfg, s, Record(c, d))
    ensures var s' := Apply(cfg, s, Record(c, d));
      && (forall p: nat, k: nat :: InPlan(cfg.plans, p, k) && WasTaken(s', Data(p, k)) ==>
            s'.readRecs[IdOf(cfg.plans, p, k)].Some? || IsHeld(s', Data(p, k)))
      && (forall b :: 0 <= b < |s'.consumers| && s'.consumers[b].pc.Holding? ==>
            WasTaken(s', s'.consumers[b].pc.msg))
  {
    var s' := Apply(cfg, s, Record(c, d));
    var n := s.consumers[c].pc.msg;
    assert forall b, m :: b != c ==> (HeldBy(s', m, b) <==> HeldBy(s, m, b));
    forall p: nat, k: nat | InPlan(cfg.plans, p, k) && WasTaken(s', Data(p, k))
      ensures s'.readRecs[IdOf(cfg.plans, p, k)].Some? || IsHeld(s', Data(p, k))
    {
      if n != Data(p, k) {
        assert IdOf(cfg.plans, p, k) != IdOf(cfg.plans, n.p, n.k);
        assert WasTaken(s, Data(p, k));
        if IsHeld(s, Data(p, k)) {
          var b :| HeldBy(s, Data(p, k), b);
          assert HeldBy(s', Data(p, k), b);
        }
      }
    }
    forall b | 0 <= b < |s'.consumers| && s'.consumers[b].pc.Holding? ensures WasTaken(s', s'.consumers[b].pc.msg) {
      assert b != c;
      assert WasTaken(s, s.consumers[b].pc.msg);
    }
  }

  lemma StepKeepsTimes(cfg: Config, t0: int, s: State, e: Event)
    requires Inv(cfg, t0, s) && Enabled(cfg, s, e) && Phase(cfg, Apply(cfg, s, e))
    ensures Times(cfg, t0, Apply(cfg, s, e))
  {
    match e
    case EndWrite(p, d) => EndWriteKeepsTimes(cfg, t0, s, p, d);
    case TakeMessage(c) => TakeKeepsTimes(cfg, t0, s, c);
    case Record(c, d) => RecordKeepsTimes(cfg, t0, s, c, d);
    case MainStep => MainKeepsTimes(cfg, t0, s);
    case _ => ProducerKeepsTimes(cfg, t0, s, e);
  }

  lemma MainKeepsTimes(cfg: Config, t0: int, s: State)
    requires ValidConfig(cfg) && Phase(cfg, s) && Times(cfg, t0, s)
    requires MainEnabled(cfg, s) && Shape(cfg, ApplyMain(cfg, s))
    ensures Times(cfg, t0, ApplyMain(cfg, s))
  {
    var s' := ApplyMain(cfg, s);
    assert forall c, m :: HeldBy(s', m, c) <==> HeldBy(s, m, c);
    FrameTimes(cfg, t0, s, s');
  }

  lemma ProducerKeepsTimes(cfg: Config, t0: int, s: State, e: Event)
    requires ValidConfig(cfg) && Phase(cfg, s) && Times(cfg, t0, s)
    requires Enabled(cfg, s, e) && (e.BeginWrite? || e.PutMessage? || e.EndProducer?)
    ensures Times(cfg, t0, Apply(cfg, s, e))
  {
    var s' := Apply(cfg, s, e);
    assert forall c, m :: HeldBy(s', m, c) <==> HeldBy(s, m, c);
    FrameTimes(cfg, t0, s, s');
  }

  // ----- Runs

  lemma StepKeepsInv(cfg: Config, t0: int, s: State, e: Event)
    requires Inv(cfg, t0, s) && Enabled(cfg, s, e)
    ensures Inv(cfg, t0, Apply(cfg, s, e))
  {
    forall j | 0 <= j < |s.queue| && s.queue[j].EndMarker? ensures ProducersJoined(s.main) {
      assert s.puts[|s.takes| + j] == EndMarker;
    }
    StepKeepsPhase(cfg, s, e);
    StepKeepsFifo(cfg, s, e);
    StepKeepsPutLog(cfg, s, e);
    StepKeepsCounts(cfg, s, e);
    StepKeepsTakers(cfg, s, e);
    StepKeepsTimes(cfg, t0, s, e);
  }

  lemma {:induction false} RunKeepsInv(cfg: Config, t0: int, s: State, evs: seq<Event>)
    requires Inv(cfg, t0, s) && Admissible(cfg, s, evs)
    ensures Inv(cfg, t0, Exec(cfg, s, evs))
    decreases |evs|
  {
    if evs == [] {
    } else {
      StepKeepsInv(cfg, t0, s, evs[0]);
      RunKeepsInv(cfg, t0, Apply(cfg, s, evs[0]), evs[1..]);
    }
  }

  lemma InitHasInv(cfg: Config, s: State)
    requires ValidConfig(cfg) && Init(cfg, s)
    ensures Inv(cfg, s.now, s)
  {
    InitialCounts(cfg, s);
    InitialTimes(cfg, s);
  }

  lemma InitialCounts(cfg: Config, s: State)
    requires Init(cfg, s)
    ensures Counts(cfg, s)
  {
    SumByBounds(s.consumers, HasExited, 0, 0);
    SumByBounds(s.consumers, ReadOrHeld, 0, 0);
    SumByBounds(s.producers, Sent, 0, 0);
  }

  lemma InitialTimes(cfg: Config, s: State)
    requires ValidConfig(cfg) && Init(cfg, s)
    ensures Times(cfg, s.now, s)
  {
  }

  lemma ReachableInv(cfg: Config, s0: State, evs: seq<Event>)
    requires ValidConfig(cfg) && Init(cfg, s0) && Admissible(cfg, s0, evs)
    ensures Inv(cfg, s0.now, Exec(cfg, s0, evs))
  {
    InitHasInv(cfg, s0);
    RunKeepsInv(cfg, s0.now, s0, evs);
  }
}
