/** A completed Java run makes its report well defined. */
module JavaReport {
  import opened Sequences
  import opened Arithmetic
  import opened WorkSlices
  import opened JavaHarness
  import opened JavaClock
  import opened JavaTheorems
  import opened Quantile
  import opened LatencyReport
  import opened QuantileRows
  import opened JavaRun

  /** Every record has both readings, in order, between t0 and t1. */
  predicate Timed(begs: Records, endRecs: Records, t0: int, t1: int) {
    && |begs| == |endRecs|
    && forall i :: 0 <= i < |begs| ==>
         && begs[i].Some? && endRecs[i].Some?
         && begs[i].value.sec == 0 && endRecs[i].value.sec == 0
         && t0 <= begs[i].value.nsec <= endRecs[i].value.nsec <= t1
  }

  /** No reading is zero, which the report would take for a time never recorded. */
  predicate NonZero(rs: Records) {
    forall i :: 0 <= i < |rs| && rs[i].Some? ==> rs[i].value.nsec != 0
  }

  /**
   The exact condition for true elapsed times: timed records show their true differences if and only if no
   end reading is zero, except where the true difference happens to be the sentinel itself.
   */
  lemma ElapsedTrueIffNonZero(begs: Records, endRecs: Records, t0: int, t1: int)
    requires Timed(begs, endRecs, t0, t1) && t1 - t0 < TWO_TO_THE_63
    ensures AllReadable(begs, endRecs, |begs|)
    ensures (forall i :: 0 <= i < |begs| ==>
               ElapsedOf(begs[i], endRecs[i]) == endRecs[i].value.nsec - begs[i].value.nsec)
      <==> forall i :: 0 <= i < |begs| ==>
             endRecs[i].value.nsec != 0 || -begs[i].value.nsec == INTEGER_MAX_VALUE
  {
    forall i | 0 <= i < |begs|
      ensures ElapsedOf(begs[i], endRecs[i]) == endRecs[i].value.nsec - begs[i].value.nsec
        <==> endRecs[i].value.nsec != 0 || -begs[i].value.nsec == INTEGER_MAX_VALUE
    {
    }
  }

  lemma ProductBelow(n: nat, a: int, b: int, limit: int)
    requires a <= b && n * b < limit
    ensures n * a < limit
  {
    assert n * (b - a) >= 0;
  }

  lemma AverageOfExtremes(begs: Records, endRecs: Records, lo: nat, hi: nat, span: int)
    requires AllPresent(begs, endRecs) && 1 <= |begs| && hi <= span && |begs| * span < TWO_TO_THE_63
    requires AllReadable(begs, endRecs, |begs|)
    requires forall v :: v in ElapsedAll(begs, endRecs) ==> lo <= v <= hi
    ensures lo <= Average(begs, endRecs) <= hi
  {
    forall i | 0 <= i < |begs| ensures lo <= ElapsedOf(begs[i], endRecs[i]) <= hi {
      assert ElapsedAll(begs, endRecs)[i] in ElapsedAll(begs, endRecs);
    }
    ProductBelow(|begs|, hi, span, TWO_TO_THE_63);
    AverageBetween(begs, endRecs, lo, hi);
  }

  lemma TimedRowsAverage(begs: Records, endRecs: Records, lo: nat, hi: nat, span: int, step: nat)
    requires AllPresent(begs, endRecs) && AllReadable(begs, endRecs, |begs|)
    requires 1 <= |begs| <= INTEGER_MAX_VALUE && hi <= span && |begs| * span < TWO_TO_THE_63 && step > 0
    requires forall v :: v in ElapsedAll(begs, endRecs) ==> lo <= v <= hi
    ensures OneAverage(ReportBody(begs, endRecs, step, false), ReportBody(begs, endRecs, step, true), lo, hi)
  {
    AverageOfExtremes(begs, endRecs, lo, hi, span);
    BothRowsShowAverage(begs, endRecs, step);
  }

  /**
   The two rows of a pair of actions whose records are all timed: neither meets a null or divides by zero;
   every elapsed time is the true nonnegative difference; and the rows show the same average, which lies
   between the smallest and the largest elapsed time.
   */
  lemma TimedRecordsReport(begs: Records, endRecs: Records, t0: int, t1: int, step: nat)
    requires Timed(begs, endRecs, t0, t1) && NonZero(endRecs) && t0 <= t1 && step > 0
    requires 1 <= |begs| <= INTEGER_MAX_VALUE && |begs| * (t1 - t0) < TWO_TO_THE_63
    ensures AllReadable(begs, endRecs, |begs|)
    ensures var data := ElapsedAll(begs, endRecs);
      && (forall i :: 0 <= i < |data| ==>
            0 <= data[i] == endRecs[i].value.nsec - begs[i].value.nsec <= t1 - t0)
      && Sorted(data)[0] in data && (forall v :: v in data ==> Sorted(data)[0] <= v <= Sorted(data)[|data| - 1])
      && OneAverage(ReportBody(begs, endRecs, step, false), ReportBody(begs, endRecs, step, true),
                    Sorted(data)[0], Sorted(data)[|data| - 1])
  {
    var n := |begs|;
    MulMonotone(1, n, t1 - t0);
    ElapsedWithin(begs, endRecs, t0, t1);
    var data := ElapsedAll(begs, endRecs);
    SortedExtremes(data);
    TimedRowsAverage(begs, endRecs, Sorted(data)[0], Sorted(data)[n - 1], t1 - t0, step);
  }

  /**
   The two rows of a pair of actions show these elapsed times: the row by index samples them as they are,
   the row by elapsed in ascending order, from the smallest to the largest; and both show one average.
   */
  ghost predicate ShowsData(byIdx: Outcome, byElapsed: Outcome, data: seq<int>, step: nat)
    requires step > 0 && 1 <= |data| <= MAX_COUNT
  {
    var d := Sorted(data);
    && byIdx.Written? && byElapsed.Written? && byIdx.row.avg == byElapsed.row.avg
    && Ascending(d) && multiset(d) == multiset(data)
    && ShowsRow(byIdx.row, data, step) && ShowsRow(byElapsed.row, d, step)
    && byIdx.row.cells == CellsOf(RowOf(data, step)) && byIdx.row.last == CellOf(data[|data| - 1])
    && byElapsed.row.cells == CellsOf(RowOf(d, step)) && byElapsed.row.last == CellOf(d[|d| - 1])
    && Ascending(RowOf(d, step)) && |RowOf(d, step)| > 0
    && (forall v :: v in data ==> RowOf(d, step)[0] <= v <= d[|d| - 1])
    && RowOf(d, step)[0] in data && d[|d| - 1] in data
  }

  lemma RowsShowData(avg: int, data: seq<int>, step: nat)
    requires step > 0 && 1 <= |data| <= MAX_COUNT
    ensures ShowsData(Written(RowWith(avg, data, Positions(|data|), step, false)),
                      Written(RowWith(avg, data, Positions(|data|), step, true)), data, step)
  {
    SortedRowSamples(data, step);
    RowShowsData(RowWith(avg, data, Positions(|data|), step, false), data, step);
    RowShowsData(RowWith(avg, data, Positions(|data|), step, true), Sorted(data), step);
  }

  /**
   Of any pair whose records are all timed, zero readings included, the sorted row is nondecreasing, starts
   at the smallest elapsed time and ends at the largest, and both rows sample the same records.
   */
  lemma TimedRecordsSortedRow(begs: Records, endRecs: Records, t0: int, t1: int, step: nat)
    requires Timed(begs, endRecs, t0, t1) && step > 0 && 1 <= |begs| <= INTEGER_MAX_VALUE
    ensures AllReadable(begs, endRecs, |begs|)
    ensures ShowsData(ReportBody(begs, endRecs, step, false), ReportBody(begs, endRecs, step, true),
                      ElapsedAll(begs, endRecs), step)
  {
    assert AllReadable(begs, endRecs, |begs|);
    RowsShowData(Average(begs, endRecs), ElapsedAll(begs, endRecs), step);
  }

  lemma ElapsedWithin(begs: Records, endRecs: Records, t0: int, t1: int)
    requires Timed(begs, endRecs, t0, t1) && NonZero(endRecs) && t1 - t0 < TWO_TO_THE_63
    ensures AllPresent(begs, endRecs) && AllReadable(begs, endRecs, |begs|)
    ensures forall i :: 0 <= i < |begs| ==>
      0 <= ElapsedOf(begs[i], endRecs[i]) == endRecs[i].value.nsec - begs[i].value.nsec <= t1 - t0
  {
  }

  /** After run has returned, the records of both reported pairs are timed. */
  lemma CompletedRunIsTimed(cfg: Config, s0: State, evs: seq<Event>,
                            begs: Records, endRecs: Records, readRecs: Records)
    requires ValidConfig(cfg) && Init(cfg, s0) && Admissible(cfg, s0, evs)
    requires var s := Exec(cfg, s0, evs);
      && s.main.Returned?
      && s.begRecs == Readings(begs) && s.endRecs == Readings(endRecs) && s.readRecs == Readings(readRecs)
    requires WellFormed(begs, ACTION_WRITE_BEGIN) && WellFormed(endRecs, ACTION_WRITE_END)
    requires WellFormed(readRecs, ACTION_READ)
    ensures var s := Exec(cfg, s0, evs);
      Timed(begs, endRecs, s0.now, s.now) && Timed(begs, readRecs, s0.now, s.now)
  {
    RunRecordsAllTimes(cfg, s0, evs);
    var s := Exec(cfg, s0, evs);
    forall i | 0 <= i < |begs|
      ensures begs[i].Some? && endRecs[i].Some? && readRecs[i].Some?
      ensures Some(begs[i].value.nsec) == s.begRecs[i]
      ensures Some(endRecs[i].value.nsec) == s.endRecs[i]
      ensures Some(readRecs[i].value.nsec) == s.readRecs[i]
    {
      assert s.begRecs[i].Some? && s.endRecs[i].Some? && s.readRecs[i].Some?;
      assert s.begRecs[i] == Readings(begs)[i];
      assert s.endRecs[i] == Readings(endRecs)[i];
      assert s.readRecs[i] == Readings(readRecs)[i];
    }
  }

  lemma {:induction false} ClockRunsOn(cfg: Config, s: State, evs: seq<Event>)
    requires Admissible(cfg, s, evs)
    ensures s.now <= Exec(cfg, s, evs).now
    decreases |evs|
  {
    if evs == [] {
    } else {
      ClockRunsOn(cfg, Apply(cfg, s, evs[0]), evs[1..]);
    }
  }

  predicate NoZeroReading(ts: seq<Option<int>>) {
    forall i :: 0 <= i < |ts| ==> ts[i] != Some(0)
  }

  lemma NonZeroRecords(rs: Records)
    requires NoZeroReading(Readings(rs))
    ensures NonZero(rs)
  {
    forall i | 0 <= i < |rs| && rs[i].Some? ensures rs[i].value.nsec != 0 {
      assert Readings(rs)[i] == Some(rs[i].value.nsec);
    }
  }

  /** All readings of a finished run. */
  predicate AllTaken(begTs: seq<Option<int>>, endTs: seq<Option<int>>) {
    |begTs| == |endTs| && forall i :: 0 <= i < |begTs| ==> begTs[i].Some? && endTs[i].Some?
  }

  /** The elapsed times that the report takes from clock readings: a zero end reading stands for none. */
  function ElapsedTimes(begTs: seq<Option<int>>, endTs: seq<Option<int>>): (data: seq<int>)
    requires AllTaken(begTs, endTs)
    ensures |data| == |begTs|
  {
    seq(|begTs|, i requires 0 <= i < |begTs| =>
      if endTs[i].value == 0 then INTEGER_MAX_VALUE else endTs[i].value - begTs[i].value)
  }

  /** What the average counts: the elapsed times, but nothing for a zero end reading. */
  function CountedTimes(begTs: seq<Option<int>>, endTs: seq<Option<int>>): (xs: seq<int>)
    requires AllTaken(begTs, endTs)
    ensures |xs| == |begTs|
  {
    seq(|begTs|, i requires 0 <= i < |begTs| => if endTs[i].value == 0 then 0 else endTs[i].value - begTs[i].value)
  }

  /**
   The rows of a pair of actions over the readings of a run that took the given span: they show the elapsed
   times with their mean, which is between zero and the span, and, when no end reading is zero, between the
   smallest and the largest elapsed time.
   */
  ghost predicate ReportsReadings(rows: (Outcome, Outcome), begTs: seq<Option<int>>, endTs: seq<Option<int>>,
                                  step: nat, span: int)
  {
    && AllTaken(begTs, endTs) && step > 0 && 1 <= |begTs| <= MAX_COUNT
    && var data := ElapsedTimes(begTs, endTs);
       && ShowsData(rows.0, rows.1, data, step)
       && IsMean(rows.0.row.avg, CountedTimes(begTs, endTs))
       && 0 <= rows.0.row.avg <= span
       && (NoZeroReading(endTs) ==> Sorted(data)[0] <= rows.0.row.avg <= Sorted(data)[|data| - 1])
  }

  lemma ElapsedFromReadings(begs: Records, endRecs: Records, t0: int, t1: int)
    requires Timed(begs, endRecs, t0, t1) && t1 - t0 < TWO_TO_THE_63
    ensures AllTaken(Readings(begs), Readings(endRecs)) && AllReadable(begs, endRecs, |begs|)
    ensures ElapsedTimes(Readings(begs), Readings(endRecs)) == ElapsedAll(begs, endRecs)
    ensures CountedTimes(Readings(begs), Readings(endRecs)) == Summands(begs, endRecs)
  {
  }

  /** The average of timed records, which counts nothing for a zero end reading, is their true mean. */
  lemma TimedAverage(begs: Records, endRecs: Records, t0: int, t1: int)
    requires Timed(begs, endRecs, t0, t1) && 1 <= |begs| && t0 <= t1 && |begs| * (t1 - t0) < TWO_TO_THE_63
    ensures AllReadable(begs, endRecs, |begs|) && 0 <= Average(begs, endRecs) <= t1 - t0
    ensures IsMean(Average(begs, endRecs), Summands(begs, endRecs))
  {
    MulMonotone(1, |begs|, t1 - t0);
    AverageWithin(begs, endRecs, 0, t1 - t0);
    AverageIsMean(begs, endRecs, t1 - t0);
  }

  lemma TimedRecordsRows(begs: Records, endRecs: Records, t0: int, t1: int, step: nat)
    requires Timed(begs, endRecs, t0, t1) && t0 <= t1 && step > 0
    requires 1 <= |begs| <= INTEGER_MAX_VALUE && |begs| * (t1 - t0) < TWO_TO_THE_63
    ensures ReportsReadings((ReportBody(begs, endRecs, step, false), ReportBody(begs, endRecs, step, true)),
                            Readings(begs), Readings(endRecs), step, t1 - t0)
  {
    MulMonotone(1, |begs|, t1 - t0);
    ElapsedFromReadings(begs, endRecs, t0, t1);
    TimedRecordsSortedRow(begs, endRecs, t0, t1, step);
    TimedAverage(begs, endRecs, t0, t1);
    if NoZeroReading(Readings(endRecs)) {
      NonZeroRecords(endRecs);
      TimedRecordsReport(begs, endRecs, t0, t1, step);
    }
  }

  /** genReport for one pair of actions: the row by index, then the row by elapsed time. */
  method ReportPair(begs: array<Option<LatencyBenchmarkRecord>>, endRecs: array<Option<LatencyBenchmarkRecord>>,
                    step: nat, ghost t0: int, ghost t1: int)
    returns (rows: (Outcome, Outcome))
    requires Timed(begs[..], endRecs[..], t0, t1) && t0 <= t1 && step > 0
    requires begs.Length == endRecs.Length <= INTEGER_MAX_VALUE
    requires begs.Length * (t1 - t0) < TWO_TO_THE_63
    ensures begs.Length == 0 ==> rows == (DivideByZero, DivideByZero)
    ensures begs.Length > 0 ==> ReportsReadings(rows, Readings(begs[..]), Readings(endRecs[..]), step, t1 - t0)
  {
    if begs.Length > 0 { TimedRecordsRows(begs[..], endRecs[..], t0, t1, step); }
    var byIdx := GenLatencyReportBody(begs, endRecs, step, false);
    var byElapsed := GenLatencyReportBody(begs, endRecs, step, true);
    rows := (byIdx, byElapsed);
  }

  /** The configuration of a benchmark that has been given these options. */
  function ConfigOf(totalRounds: nat, recordPerRound: nat, producer: nat, consumer: nat, capacity: nat): Config {
    Config(JavaPlans(producer, totalRounds * recordPerRound), consumer, capacity,
           producer * (totalRounds * recordPerRound))
  }

  /** The total and the four rows of a returned run that began at the given time. */
  ghost predicate ReportsRun(s: State, start: int, step: nat, total: int,
                             writeRows: (Outcome, Outcome), readRows: (Outcome, Outcome))
  {
    && total == |s.begRecs|
    && (total == 0 ==> writeRows == readRows == (DivideByZero, DivideByZero))
    && (total > 0 ==> ReportsReadings(writeRows, s.begRecs, s.endRecs, step, s.now - start))
    && (total > 0 ==> ReportsReadings(readRows, s.begRecs, s.readRecs, step, s.now - start))
  }

  /** What a returned run leaves for its report. */
  lemma ReadyToReport(cfg: Config, s0: State, evs: seq<Event>, begs: Records, endRecs: Records, readRecs: Records)
    requires ValidConfig(cfg) && Init(cfg, s0) && Admissible(cfg, s0, evs)
    requires var s := Exec(cfg, s0, evs);
      && s.main.Returned?
      && s.begRecs == Readings(begs) && s.endRecs == Readings(endRecs) && s.readRecs == Readings(readRecs)
    requires WellFormed(begs, ACTION_WRITE_BEGIN) && WellFormed(endRecs, ACTION_WRITE_END)
    requires WellFormed(readRecs, ACTION_READ)
    ensures var s := Exec(cfg, s0, evs);
      && s.main.total == cfg.recordCount && s0.now <= s.now
      && Timed(begs, endRecs, s0.now, s.now) && Timed(begs, readRecs, s0.now, s.now)
  {
    ClockRunsOn(cfg, s0, evs);
    CompletedRunIsTimed(cfg, s0, evs, begs, endRecs, readRecs);
    RunDeliversExactlyOnce(cfg, s0, evs);
  }

  /** genReport: the rows of the pair of write actions, then those of write and read. */
  method ReportPairs(begs: array<Option<LatencyBenchmarkRecord>>, endRecs: array<Option<LatencyBenchmarkRecord>>,
                     readRecs: array<Option<LatencyBenchmarkRecord>>, step: nat, ghost t0: int, ghost t1: int)
    returns (writeRows: (Outcome, Outcome), readRows: (Outcome, Outcome))
    requires Timed(begs[..], endRecs[..], t0, t1) && Timed(begs[..], readRecs[..], t0, t1) && t0 <= t1 && step > 0
    requires begs.Length == endRecs.Length == readRecs.Length <= INTEGER_MAX_VALUE
    requires begs.Length * (t1 - t0) < TWO_TO_THE_63
    ensures begs.Length == 0 ==> writeRows == readRows == (DivideByZero, DivideByZero)
    ensures begs.Length > 0 ==>
      && ReportsReadings(writeRows, Readings(begs[..]), Readings(endRecs[..]), step, t1 - t0)
      && ReportsReadings(readRows, Readings(begs[..]), Readings(readRecs[..]), step, t1 - t0)
  {
    writeRows := ReportPair(begs, endRecs, step, t0, t1);
    readRows := ReportPair(begs, readRecs, step, t0, t1);
  }

  /** genReport on the records of a returned run. */
  method GenReport(b: LatencyBenchmarkThreadTrans, step: nat, ghost s0: State, ghost evs: seq<Event>)
    returns (total: int, writeRows: (Outcome, Outcome), readRows: (Outcome, Outcome))
    requires b.Valid() && ValidConfig(b.cfg) && Init(b.cfg, s0) && Admissible(b.cfg, s0, evs)
    requires b.View() == Exec(b.cfg, s0, evs) && b.main.Returned?
    requires b.cfg.recordCount <= INTEGER_MAX_VALUE && b.cfg.recordCount * (b.now - s0.now) < TWO_TO_THE_63
    requires step > 0
    ensures ReportsRun(b.View(), s0.now, step, total, writeRows, readRows)
  {
    ReadyToReport(b.cfg, s0, evs, b.begRecords[..], b.endRecords[..], b.readRecords[..]);
    total := b.main.total;
    writeRows, readRows := ReportPairs(b.begRecords, b.endRecords, b.readRecords, step, s0.now, b.now);
  }

  /** run and genReport on a new benchmark. */
  method RunAndReport(b: LatencyBenchmarkThreadTrans, start: int, evs: seq<Event>, step: nat)
    returns (total: int, writeRows: (Outcome, Outcome), readRows: (Outcome, Outcome))
    requires b.Valid() && ValidConfig(b.cfg) && b.View() == InitialState(b.cfg, start) && step > 0
    requires b.cfg.recordCount <= INTEGER_MAX_VALUE && Admissible(b.cfg, b.View(), evs)
    requires Exec(b.cfg, b.View(), evs).main.Returned?
    requires b.cfg.recordCount * (Exec(b.cfg, b.View(), evs).now - start) < TWO_TO_THE_63
    modifies b, b.begRecords, b.endRecords, b.readRecords
    ensures ReportsRun(Exec(b.cfg, InitialState(b.cfg, start), evs), start, step, total, writeRows, readRows)
    ensures total == b.cfg.recordCount && AllClocked(b.cfg, InitialState(b.cfg, start), evs)
  {
    ghost var s0 := b.View();
    RunRecordsAllTimes(b.cfg, s0, evs);
    b.Run(evs);
    total, writeRows, readRows := GenReport(b, step, s0, evs);
  }

  /**
   A benchmark from its constructor to its report: whatever the interleaving, if run returns then all
   records have been read, and the four rows show the elapsed times between the clock readings of the run;
   with no records at all, the report divides by zero.  Each reading is the clock just after the step of the
   schedule that took it.
   */
  method BenchmarkAndReport(totalRounds: nat, recordPerRound: nat, producer: nat, consumer: nat,
                            capacity: nat, start: int, evs: seq<Event>, step: nat)
    returns (total: int, writeRows: (Outcome, Outcome), readRows: (Outcome, Outcome))
    requires consumer >= 1 && capacity >= 1 && step > 0
    requires var cfg := ConfigOf(totalRounds, recordPerRound, producer, consumer, capacity);
      && cfg.recordCount <= INTEGER_MAX_VALUE
      && Admissible(cfg, InitialState(cfg, start), evs)
      && var s := Exec(cfg, InitialState(cfg, start), evs);
         s.main.Returned? && cfg.recordCount * (s.now - start) < TWO_TO_THE_63
    ensures total == producer * (totalRounds * recordPerRound)
    ensures var cfg := ConfigOf(totalRounds, recordPerRound, producer, consumer, capacity);
      ReportsRun(Exec(cfg, InitialState(cfg, start), evs), start, step, total, writeRows, readRows)
    ensures var cfg := ConfigOf(totalRounds, recordPerRound, producer, consumer, capacity);
      AllClocked(cfg, InitialState(cfg, start), evs)
  {
    var b := new LatencyBenchmarkThreadTrans(totalRounds, recordPerRound, producer, consumer, capacity, start);
    JavaTiles(producer, totalRounds * recordPerRound);
    total, writeRows, readRows := RunAndReport(b, start, evs, step);
  }
}
