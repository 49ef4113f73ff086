/** The report rows of the two harnesses: elapsed times, average, and sampled quantiles. */
module LatencyReport {
  import opened Sequences
  import opened Arithmetic
  import opened Quantile

  // ----- Sorting.  The library's sort is known by its result, which is unique.

  predicate Ascending(s: seq<int>) {
    forall i, j :: 0 <= i < j < |s| ==> s[i] <= s[j]
  }

  function Insert(x: int, s: seq<int>): (r: seq<int>)
    ensures |r| == |s| + 1
  {
    if s == [] || x <= s[0] then [x] + s else [s[0]] + Insert(x, s[1..])
  }

  function Sorted(s: seq<int>): (r: seq<int>)
    ensures |r| == |s|
  {
    if s == [] then [] else Insert(s[0], Sorted(s[1..]))
  }

  lemma {:induction false} InsertSorts(x: int, s: seq<int>)
    requires Ascending(s)
    ensures Ascending(Insert(x, s))
  {
    if s == [] || x <= s[0] {
    } else {
      InsertSorts(x, s[1..]);
      InsertMembers(x, s[1..]);
    }
  }

  lemma {:induction false} InsertKeeps(x: int, s: seq<int>)
    ensures multiset(Insert(x, s)) == multiset{x} + multiset(s)
  {
    if s == [] {
    } else {
      assert s == [s[0]] + s[1..];
      InsertKeeps(x, s[1..]);
    }
  }

  lemma {:induction false} InsertMembers(x: int, s: seq<int>)
    ensures forall i :: 0 <= i < |Insert(x, s)| ==> Insert(x, s)[i] == x || Insert(x, s)[i] in s
  {
    if s == [] || x <= s[0] {
    } else {
      InsertMembers(x, s[1..]);
    }
  }

  lemma {:induction false} SortedSorts(s: seq<int>)
    ensures Ascending(Sorted(s)) && multiset(Sorted(s)) == multiset(s)
  {
    if s == [] {
    } else {
      SortedSorts(s[1..]);
      InsertSorts(s[0], Sorted(s[1..]));
      InsertKeeps(s[0], Sorted(s[1..]));
      assert s == [s[0]] + s[1..];
    }
  }

  lemma LeastFirst(s: seq<int>, t: seq<int>)
    requires Ascending(s) && s != [] && t != [] && multiset(s) == multiset(t)
    ensures s[0] <= t[0]
  {
    assert t[0] in multiset(t);
    assert t[0] in s;
  }

  /** There is only one ascending arrangement, so any sorting algorithm gives the same row. */
  lemma {:induction false} SortingIsUnique(s: seq<int>, t: seq<int>)
    requires Ascending(s) && Ascending(t) && multiset(s) == multiset(t)
    ensures s == t
  {
    assert |multiset(s)| == |s| && |multiset(t)| == |t|;
    if s == [] {
    } else {
      LeastFirst(s, t);
      LeastFirst(t, s);
      assert s == [s[0]] + s[1..] && t == [t[0]] + t[1..];
      assert multiset(s[1..]) == multiset(s) - multiset{s[0]};
      assert multiset(t[1..]) == multiset(t) - multiset{t[0]};
      SortingIsUnique(s[1..], t[1..]);
    }
  }

  /** Sorts in place. */
  method SortInPlace(a: array<int>)
    modifies a
    ensures a[..] == Sorted(old(a[..]))
    ensures Ascending(a[..]) && multiset(a[..]) == multiset(old(a[..]))
  {
    var sorted := Sorted(a[..]);
    SortedSorts(a[..]);
    for i := 0 to a.Length
      invariant forall k :: 0 <= k < i ==> a[k] == sorted[k]
    {
      a[i] := sorted[i];
    }
    assert a[..] == sorted;
  }

  // ----- Sampling

  /** The header's quantile columns: 0, step, 2*step, ... below 100. */
  function Columns(i: nat, step: nat): (cols: seq<nat>)
    requires step > 0
    decreases 100 - i
  {
    if i >= 100 then [] else [i] + Columns(i + step, step)
  }

  /** The loop that writes the header's quantile columns, closed by column 100. */
  method HeadColumns(reportStep: nat) returns (cols: seq<nat>)
    requires reportStep > 0
    ensures cols == Columns(0, reportStep) + [100]
  {
    cols := [];
    var i := 0;
    while i < 100
      invariant cols + Columns(i, reportStep) == Columns(0, reportStep)
    {
      cols := cols + [i];
      i := i + reportStep;
    }
    cols := cols + [100];
  }

  /** Column c is c*step, and the columns are all the multiples of step below 100. */
  lemma {:induction false} ColumnAt(i: nat, step: nat, c: nat)
    requires step > 0 && c < |Columns(i, step)|
    ensures Columns(i, step)[c] == i + c * step < 100
    decreases c
  {
    if c == 0 {
    } else {
      ColumnAt(i + step, step, c - 1);
      assert c * step == step + (c - 1) * step;
    }
  }

  lemma {:induction false} ColumnCount(i: nat, step: nat)
    requires step > 0
    ensures i + |Columns(i, step)| * step >= 100
    decreases 100 - i
  {
    if i >= 100 {
    } else {
      ColumnCount(i + step, step);
      var n := |Columns(i + step, step)|;
      assert (n + 1) * step == n * step + step;
    }
  }

  /** A choice of positions that stays inside data of length n. */
  predicate ValidPositions(pos: nat -> nat, n: nat) {
    forall i: nat :: i < 100 ==> pos(i) < n
  }

  lemma AllPositionsValid(cnt: nat)
    requires 1 <= cnt <= MAX_COUNT
    ensures forall i: nat :: i < 100 ==> QuantilePos(i, cnt) < cnt
  {
    forall i: nat | i < 100 ensures QuantilePos(i, cnt) < cnt { PositionNearQuotient(i, cnt); }
  }

  /** The positions that the reports use for cnt records. */
  function Positions(cnt: nat): (pos: nat -> nat)
    requires cnt <= MAX_COUNT
    ensures cnt > 0 ==> ValidPositions(pos, cnt)
  {
    assert cnt > 0 ==> forall i: nat :: i < 100 ==> QuantilePos(i, cnt) < cnt by {
      if cnt > 0 { AllPositionsValid(cnt); }
    }
    (i: nat) => QuantilePos(i, cnt)
  }

  /** The values a row samples from its data, column by column. */
  function Samples(data: seq<int>, pos: nat -> nat, i: nat, step: nat): (vals: seq<int>)
    requires step > 0 && ValidPositions(pos, |data|)
    ensures |vals| == |Columns(i, step)|
    decreases 100 - i
  {
    if i >= 100 then [] else [data[pos(i)]] + Samples(data, pos, i + step, step)
  }

  /** A row's samples of its whole data. */
  function RowOf(data: seq<int>, step: nat): (vals: seq<int>)
    requires step > 0 && 1 <= |data| <= MAX_COUNT
    ensures |vals| == |Columns(0, step)|
  {
    Samples(data, Positions(|data|), 0, step)
  }

  /** One column more has been sampled, one less is to come. */
  lemma SamplesStep(vals: seq<int>, data: seq<int>, pos: nat -> nat, i: nat, step: nat)
    requires step > 0 && ValidPositions(pos, |data|) && i < 100
    ensures (vals + [data[pos(i)]]) + Samples(data, pos, i + step, step) == vals + Samples(data, pos, i, step)
  {
  }

  /** The sampling loop, for any choice of positions. */
  method SampleRow(elapsed: array<int>, pos: nat -> nat, reportStep: nat) returns (vals: seq<int>)
    requires reportStep > 0 && ValidPositions(pos, elapsed.Length)
    ensures vals == Samples(elapsed[..], pos, 0, reportStep)
  {
    ghost var data := elapsed[..];
    vals := [];
    var i := 0;
    while i < 100
      invariant elapsed[..] == data
      invariant vals + Samples(data, pos, i, reportStep) == Samples(data, pos, 0, reportStep)
    {
      SamplesStep(vals, data, pos, i, reportStep);
      vals := vals + [elapsed[pos(i)]];
      i := i + reportStep;
    }
  }

  lemma {:induction false} SampleAt(data: seq<int>, pos: nat -> nat, i: nat, step: nat, c: nat)
    requires step > 0 && ValidPositions(pos, |data|) && c < |Columns(i, step)|
    ensures var q := Columns(i, step)[c];
      i <= q < 100 && Samples(data, pos, i, step)[c] == data[pos(q)]
    decreases c
  {
    if c == 0 {
    } else {
      SampleAt(data, pos, i + step, step, c - 1);
    }
  }

  lemma {:induction false} ColumnsIncrease(i: nat, step: nat, c: nat, d: nat)
    requires step > 0 && c < d < |Columns(i, step)|
    ensures i <= Columns(i, step)[c] < Columns(i, step)[d]
    decreases d
  {
    if c == 0 {
      ColumnAtLeast(i + step, step, d - 1);
    } else {
      ColumnsIncrease(i + step, step, c - 1, d - 1);
    }
  }

  lemma {:induction false} ColumnAtLeast(i: nat, step: nat, c: nat)
    requires step > 0 && c < |Columns(i, step)|
    ensures Columns(i, step)[c] >= i
    decreases c
  {
    if c == 0 {
    } else {
      ColumnAtLeast(i + step, step, c - 1);
    }
  }

  /** Positions that begin at the first element and do not go back. */
  predicate AscendingPositions(pos: nat -> nat) {
    pos(0) == 0 && forall i: nat, j: nat :: i <= j < 100 ==> pos(i) <= pos(j)
  }

  lemma PositionsAscend(cnt: nat)
    requires 1 <= cnt <= MAX_COUNT
    ensures AscendingPositions(Positions(cnt))
  {
    var pos := Positions(cnt);
    PositionNearQuotient(0, cnt);
    assert 0 * cnt == 0;
    forall i: nat, j: nat | i <= j < 100 ensures pos(i) <= pos(j) { PositionsIncrease(i, j, cnt); }
  }

  /** Sampling ascending data gives an ascending row that begins with the first element. */
  lemma SamplesAscend(d: seq<int>, pos: nat -> nat, step: nat)
    requires step > 0 && d != [] && ValidPositions(pos, |d|)
    requires Ascending(d) && AscendingPositions(pos)
    ensures var row := Samples(d, pos, 0, step);
      && Ascending(row) && |row| > 0 && row[0] == d[0]
      && (forall c :: 0 <= c < |row| ==> row[c] <= d[|d| - 1])
  {
    var row := Samples(d, pos, 0, step);
    forall c | 0 <= c < |row| ensures row[c] <= d[|d| - 1] {
      SampleAt(d, pos, 0, step, c);
    }
    forall c, e | 0 <= c < e < |row| ensures row[c] <= row[e] {
      SampleAt(d, pos, 0, step, c);
      SampleAt(d, pos, 0, step, e);
      ColumnsIncrease(0, step, c, e);
      var i, j := Columns(0, step)[c], Columns(0, step)[e];
      assert pos(i) <= pos(j) < |d|;
    }
    SampleAt(d, pos, 0, step, 0);
  }

  lemma SortedExtremes(data: seq<int>)
    requires data != []
    ensures var d := Sorted(data);
      && d[0] in data && d[|d| - 1] in data
      && (forall v :: v in data ==> d[0] <= v <= d[|d| - 1])
  {
    var d := Sorted(data);
    SortedSorts(data);
    assert d[0] in multiset(d) && d[|d| - 1] in multiset(d);
    forall v | v in data ensures d[0] <= v <= d[|d| - 1] {
      assert v in multiset(d);
      var i :| 0 <= i < |d| && d[i] == v;
    }
  }

  /**
   The sorted row: its samples do not decrease from column to column, they start at the minimum of the
   unsorted data, stay below its maximum, and the maximum is what the last column shows.
   */
  lemma SortedRowOrdered(data: seq<int>, step: nat)
    requires step > 0 && 1 <= |data| <= MAX_COUNT
    ensures var d := Sorted(data);
      var row := RowOf(d, step);
      && Ascending(row) && |row| > 0
      && row[0] in data && (forall v :: v in data ==> row[0] <= v)
      && d[|d| - 1] in data && (forall v :: v in data ==> v <= d[|d| - 1])
      && (forall c :: 0 <= c < |row| ==> row[c] <= d[|d| - 1])
  {
    SortedSorts(data);
    SortedExtremes(data);
    PositionsAscend(|data|);
    SamplesAscend(Sorted(data), Positions(|data|), step);
  }

  // ----- Java

  datatype LatencyBenchmarkRecord = LatencyBenchmarkRecord(action: int, id: int, sec: int, nsec: int)

  type Records = seq<Option<LatencyBenchmarkRecord>>

  const INTEGER_MAX_VALUE: int := 0x7fff_ffff
  const TWO_TO_THE_63: int := 0x8000_0000_0000_0000

  /** The value a Java long holds for the true value x. */
  function Wrap64(x: int): (w: int)
    ensures -TWO_TO_THE_63 <= x < TWO_TO_THE_63 ==> w == x
  {
    (x + TWO_TO_THE_63) % (2 * TWO_TO_THE_63) - TWO_TO_THE_63
  }

  /** Java's division: towards zero. */
  function TruncDiv(a: int, b: int): int
    requires b > 0
  {
    if a >= 0 then a / b else -((-a) / b)
  }

  /** An end record without a time. */
  predicate Missing(e: LatencyBenchmarkRecord) {
    e.sec == 0 && e.nsec == 0
  }

  /** The loop body dereferences no null. */
  predicate Readable(b: Option<LatencyBenchmarkRecord>, e: Option<LatencyBenchmarkRecord>) {
    e.Some? && (Missing(e.value) || b.Some?)
  }

  /** Wrapping once at the end is wrapping at every operation. */
  function ElapsedOf(b: Option<LatencyBenchmarkRecord>, e: Option<LatencyBenchmarkRecord>): int
    requires Readable(b, e)
  {
    if Missing(e.value) then INTEGER_MAX_VALUE
    else Wrap64((e.value.sec - b.value.sec) * 1000000000 + e.value.nsec - b.value.nsec)
  }

  function Summand(b: Option<LatencyBenchmarkRecord>, e: Option<LatencyBenchmarkRecord>): int
    requires Readable(b, e)
  {
    if Missing(e.value) then 0 else ElapsedOf(b, e)
  }

  const NANOSECONDS_PER_SECOND: int := 1_000_000_000

  /** The time of a record in nanoseconds. */
  function Nanoseconds(r: LatencyBenchmarkRecord): int {
    r.sec * NANOSECONDS_PER_SECOND + r.nsec
  }

  /**
   Of an end record with a time, the elapsed time is the true difference in nanoseconds, if a long can hold
   it; of one without, it is the sentinel.
   */
  lemma ElapsedIsDifference(b: LatencyBenchmarkRecord, e: LatencyBenchmarkRecord)
    requires -TWO_TO_THE_63 <= Nanoseconds(e) - Nanoseconds(b) < TWO_TO_THE_63
    ensures e.sec != 0 || e.nsec != 0 ==> ElapsedOf(Some(b), Some(e)) == Nanoseconds(e) - Nanoseconds(b)
    ensures e.sec == 0 && e.nsec == 0 ==> ElapsedOf(Some(b), Some(e)) == 0x7fff_ffff
  {
    assert (e.sec - b.sec) * 1000000000 == e.sec * 1000000000 - b.sec * 1000000000;
  }

  predicate AllReadable(begs: Records, endRecs: Records, n: nat)
    requires n <= |begs| == |endRecs|
  {
    forall i :: 0 <= i < n ==> Readable(begs[i], endRecs[i])
  }

  function ElapsedAll(begs: Records, endRecs: Records): (data: seq<int>)
    requires |begs| == |endRecs| && AllReadable(begs, endRecs, |begs|)
    ensures |data| == |begs|
  {
    seq(|begs|, i requires 0 <= i < |begs| => ElapsedOf(begs[i], endRecs[i]))
  }

  /** The long accumulator after n records. */
  function RunningSum(begs: Records, endRecs: Records, n: nat): int
    requires n <= |begs| == |endRecs| && AllReadable(begs, endRecs, n)
  {
    if n == 0 then 0 else Wrap64(RunningSum(begs, endRecs, n - 1) + Summand(begs[n - 1], endRecs[n - 1]))
  }

  /** What a column shows: "-" without a separator for the sentinel, the number and a separator else. */
  datatype Cell = Dash | Num(value: int)

  function CellOf(v: int): Cell {
    if v == INTEGER_MAX_VALUE then Dash else Num(v)
  }

  datatype Row = Row(avg: int, cells: seq<Cell>, last: Cell)

  datatype Outcome = Written(row: Row) | NullPointer | DivideByZero

  function CellsOf(vals: seq<int>): (cells: seq<Cell>)
    ensures |cells| == |vals|
  {
    seq(|vals|, c requires 0 <= c < |vals| => CellOf(vals[c]))
  }

  /** A dash stands for the sentinel, any other value is shown. */
  predicate Shows(c: Cell, v: int) {
    if v == INTEGER_MAX_VALUE then c == Dash else c == Num(v)
  }

  function Average(begs: Records, endRecs: Records): int
    requires 1 <= |begs| == |endRecs| && AllReadable(begs, endRecs, |begs|)
  {
    TruncDiv(RunningSum(begs, endRecs, |begs|), |begs|)
  }

  function RowWith(avg: int, raw: seq<int>, pos: nat -> nat, step: nat, sort: bool): Row
    requires step > 0 && raw != [] && ValidPositions(pos, |raw|)
  {
    var data := if sort then Sorted(raw) else raw;
    Row(avg, CellsOf(Samples(data, pos, 0, step)), CellOf(data[|data| - 1]))
  }

  /** The outcome for any choice of positions. */
  function BodyWith(begs: Records, endRecs: Records, pos: nat -> nat, step: nat, sort: bool): Outcome
    requires |begs| == |endRecs| && step > 0 && (|begs| > 0 ==> ValidPositions(pos, |begs|))
  {
    if !AllReadable(begs, endRecs, |begs|) then NullPointer
    else if |begs| == 0 then DivideByZero
    else Written(RowWith(Average(begs, endRecs), ElapsedAll(begs, endRecs), pos, step, sort))
  }

  /** A row of the report. */
  function ReportBody(begs: Records, endRecs: Records, step: nat, sort: bool): Outcome
    requires |begs| == |endRecs| <= INTEGER_MAX_VALUE && step > 0
  {
    BodyWith(begs, endRecs, Positions(|begs|), step, sort)
  }

  /** Record i makes the loop dereference a null. */
  predicate NullAt(begs: Records, endRecs: Records, i: nat)
    requires i < |begs| == |endRecs|
  {
    endRecs[i] == None || (begs[i] == None && (endRecs[i].value.sec != 0 || endRecs[i].value.nsec != 0))
  }

  /** When a row is not written: a missing record is needed, or there are no records at all. */
  lemma RowFailsIff(begs: Records, endRecs: Records, step: nat, sort: bool)
    requires |begs| == |endRecs| <= INTEGER_MAX_VALUE && step > 0
    ensures ReportBody(begs, endRecs, step, sort).NullPointer? <==>
      exists i: nat :: i < |begs| && NullAt(begs, endRecs, i)
    ensures ReportBody(begs, endRecs, step, sort).DivideByZero? <==> |begs| == 0
  {
    if !AllReadable(begs, endRecs, |begs|) {
      var i: nat :| i < |begs| && !Readable(begs[i], endRecs[i]);
      assert NullAt(begs, endRecs, i);
    }
  }

  /** One column more has been written, one less is to come. */
  lemma CellsStep(cells: seq<Cell>, data: seq<int>, pos: nat -> nat, i: nat, step: nat)
    requires step > 0 && ValidPositions(pos, |data|) && i < 100
    ensures (cells + [CellOf(data[pos(i)])]) + CellsOf(Samples(data, pos, i + step, step))
         == cells + CellsOf(Samples(data, pos, i, step))
  {
    var later := Samples(data, pos, i + step, step);
    assert CellsOf([data[pos(i)]] + later) == [CellOf(data[pos(i)])] + CellsOf(later);
  }

  /** The quantile columns of a row, from the elapsed array. */
  method WriteQuantiles(elapsed: array<int>, pos: nat -> nat, reportStep: nat) returns (cells: seq<Cell>)
    requires reportStep > 0 && ValidPositions(pos, elapsed.Length)
    ensures cells == CellsOf(Samples(elapsed[..], pos, 0, reportStep))
  {
    ghost var data := elapsed[..];
    cells := [];
    var i := 0;
    while i < 100
      invariant elapsed[..] == data
      invariant cells + CellsOf(Samples(data, pos, i, reportStep)) == CellsOf(Samples(data, pos, 0, reportStep))
    {
      CellsStep(cells, data, pos, i, reportStep);
      var v := elapsed[pos(i)];
      if v == INTEGER_MAX_VALUE {
        cells := cells + [Dash];
      } else {
        cells := cells + [Num(v)];
      }
      i := i + reportStep;
    }
  }

  /** The first loop: the elapsed times and the long sum, unless a null is met. */
  method FillElapsed(begRecords: array<Option<LatencyBenchmarkRecord>>,
                     endRecords: array<Option<LatencyBenchmarkRecord>>, elapsed: array<int>)
    returns (ok: bool, sum: int)
    requires begRecords.Length == endRecords.Length == elapsed.Length
    modifies elapsed
    ensures ok <==> AllReadable(begRecords[..], endRecords[..], begRecords.Length)
    ensures ok ==> elapsed[..] == ElapsedAll(begRecords[..], endRecords[..])
    ensures ok ==> sum == RunningSum(begRecords[..], endRecords[..], begRecords.Length)
  {
    var cnt := begRecords.Length;
    ghost var begs, endRecs := begRecords[..], endRecords[..];
    sum := 0;
    for i := 0 to cnt
      invariant AllReadable(begs, endRecs, i)
      invariant forall k :: 0 <= k < i ==> elapsed[k] == ElapsedOf(begs[k], endRecs[k])
      invariant sum == RunningSum(begs, endRecs, i)
    {
      if endRecords[i].None? { return false, sum; }
      var e := endRecords[i].value;
      if e.sec == 0 && e.nsec == 0 {
        elapsed[i] := INTEGER_MAX_VALUE;
        assert Summand(begs[i], endRecs[i]) == 0;
        assert sum == Wrap64(sum) by { SumInRange(begs, endRecs, i); }
      } else {
        if begRecords[i].None? { return false, sum; }
        var b := begRecords[i].value;
        elapsed[i] := Wrap64((e.sec - b.sec) * 1000000000 + e.nsec - b.nsec);
        sum := Wrap64(sum + elapsed[i]);
      }
    }
    ok := true;
    assert elapsed[..] == ElapsedAll(begs, endRecs);
  }

  /** Sorts the elapsed array in place if asked to, then samples it at the given positions. */
  method SortAndSample(elapsed: array<int>, avg: int, pos: nat -> nat, reportStep: nat, sort: bool)
    returns (row: Row)
    requires elapsed.Length > 0 && reportStep > 0 && ValidPositions(pos, elapsed.Length)
    modifies elapsed
    ensures row == RowWith(avg, old(elapsed[..]), pos, reportStep, sort)
  {
    if sort {
      SortInPlace(elapsed);
    }
    var cells := WriteQuantiles(elapsed, pos, reportStep);
    var v := elapsed[elapsed.Length - 1];
    row := Row(avg, cells, if v == INTEGER_MAX_VALUE then Dash else Num(v));
  }

  method ReportWith(begRecords: array<Option<LatencyBenchmarkRecord>>,
                    endRecords: array<Option<LatencyBenchmarkRecord>>,
                    pos: nat -> nat, reportStep: nat, sort: bool)
    returns (o: Outcome)
    requires begRecords.Length == endRecords.Length && reportStep > 0
    requires begRecords.Length > 0 ==> ValidPositions(pos, begRecords.Length)
    ensures o == BodyWith(begRecords[..], endRecords[..], pos, reportStep, sort)
  {
    var cnt := begRecords.Length;
    var elapsed := new int[cnt];
    var ok, sum := FillElapsed(begRecords, endRecords, elapsed);
    if !ok { return NullPointer; }
    if cnt == 0 { return DivideByZero; }
    var avg := TruncDiv(sum, cnt);
    var row := SortAndSample(elapsed, avg, pos, reportStep, sort);
    o := Written(row);
  }

  /** genLatencyReportBody. */
  method GenLatencyReportBody(begRecords: array<Option<LatencyBenchmarkRecord>>,
                              endRecords: array<Option<LatencyBenchmarkRecord>>,
                              reportStep: nat, sort: bool)
    returns (o: Outcome)
    requires begRecords.Length == endRecords.Length <= INTEGER_MAX_VALUE && reportStep > 0
    ensures o == ReportBody(begRecords[..], endRecords[..], reportStep, sort)
  {
    o := ReportWith(begRecords, endRecords, Positions(begRecords.Length), reportStep, sort);
  }

  lemma SumInRange(begs: Records, endRecs: Records, n: nat)
    requires n <= |begs| == |endRecs| && AllReadable(begs, endRecs, n)
    ensures -TWO_TO_THE_63 <= RunningSum(begs, endRecs, n) < TWO_TO_THE_63
  {
  }

  /** The separator a quantile cell writes after itself. */
  function Separator(c: Cell): int { if c.Dash? then 0 else 1 }

  /**
   A row has as many separators as the header has quantile columns exactly when none of the values it
   samples is the sentinel: a dash is written without its separator and shifts the rest of the row.
   */
  lemma RowAlignsIffNoSentinel(data: seq<int>, step: nat)
    requires step > 0 && 1 <= |data| <= MAX_COUNT
    ensures SumBy(CellsOf(RowOf(data, step)), Separator) == |Columns(0, step)| <==>
      forall c :: 0 <= c < |Columns(0, step)| ==> RowOf(data, step)[c] != INTEGER_MAX_VALUE
  {
    var vals := RowOf(data, step);
    var cells := CellsOf(vals);
    if SumBy(cells, Separator) == |cells| {
      SumByReachesTop(cells, Separator, 1);
      forall c | 0 <= c < |vals| ensures vals[c] != INTEGER_MAX_VALUE {
        assert Separator(cells[c]) == 1;
      }
    } else if forall c :: 0 <= c < |vals| ==> vals[c] != INTEGER_MAX_VALUE {
      SumByBounds(cells, Separator, 1, 1);
    }
  }

  /** Present records only: no null, no end record without a time. */
  predicate AllPresent(begs: Records, endRecs: Records) {
    && |begs| == |endRecs|
    && forall i :: 0 <= i < |begs| ==> begs[i].Some? && endRecs[i].Some? && !Missing(endRecs[i].value)
  }

  /** What each record adds to the sum lies between lo and hi. */
  predicate SummandsWithin(begs: Records, endRecs: Records, lo: int, hi: int) {
    && |begs| == |endRecs| && AllReadable(begs, endRecs, |begs|)
    && forall i :: 0 <= i < |begs| ==> lo <= Summand(begs[i], endRecs[i]) <= hi
  }

  lemma {:induction false} SumBetween(begs: Records, endRecs: Records, n: nat, lo: nat, hi: nat)
    requires SummandsWithin(begs, endRecs, lo, hi) && n <= |begs| && |begs| * hi < TWO_TO_THE_63
    ensures n * lo <= RunningSum(begs, endRecs, n) <= n * hi
  {
    if n == 0 {
    } else {
      SumBetween(begs, endRecs, n - 1, lo, hi);
      MulMonotone(n, |begs|, hi);
      assert n * hi == (n - 1) * hi + hi && n * lo == (n - 1) * lo + lo;
      assert (n - 1) * lo >= 0;
    }
  }

  function Value(x: int): int { x }

  /** avg is the mean of xs, rounded down. */
  predicate IsMean(avg: int, xs: seq<int>) {
    avg * |xs| <= SumBy(xs, Value) < avg * |xs| + |xs|
  }

  /** What each record adds to the sum. */
  function Summands(begs: Records, endRecs: Records): (xs: seq<int>)
    requires |begs| == |endRecs| && AllReadable(begs, endRecs, |begs|)
    ensures |xs| == |begs|
  {
    seq(|begs|, i requires 0 <= i < |begs| => Summand(begs[i], endRecs[i]))
  }

  /** Without overflow the long accumulator holds the true sum. */
  lemma {:induction false} RunningSumIsTrue(begs: Records, endRecs: Records, n: nat, hi: nat)
    requires SummandsWithin(begs, endRecs, 0, hi) && n <= |begs| && |begs| * hi < TWO_TO_THE_63
    ensures RunningSum(begs, endRecs, n) == SumBy(Summands(begs, endRecs)[..n], Value)
  {
    if n == 0 {
    } else {
      var xs := Summands(begs, endRecs);
      RunningSumIsTrue(begs, endRecs, n - 1, hi);
      assert xs[..n] == xs[..n - 1] + [xs[n - 1]];
      SumByAppend(xs[..n - 1], xs[n - 1], Value);
      NoWrap(begs, endRecs, n - 1, hi);
    }
  }

  lemma NoWrap(begs: Records, endRecs: Records, n: nat, hi: nat)
    requires SummandsWithin(begs, endRecs, 0, hi) && n < |begs| && |begs| * hi < TWO_TO_THE_63
    ensures RunningSum(begs, endRecs, n + 1) == RunningSum(begs, endRecs, n) + Summand(begs[n], endRecs[n])
  {
    SumBetween(begs, endRecs, n, 0, hi);
    MulMonotone(n + 1, |begs|, hi);
    assert (n + 1) * hi == n * hi + hi;
  }

  /** The average is the true mean of what the records add, rounded down. */
  lemma AverageIsMean(begs: Records, endRecs: Records, hi: nat)
    requires SummandsWithin(begs, endRecs, 0, hi) && 1 <= |begs| && |begs| * hi < TWO_TO_THE_63
    ensures IsMean(Average(begs, endRecs), Summands(begs, endRecs))
  {
    var n := |begs|;
    RunningSumIsTrue(begs, endRecs, n, hi);
    assert Summands(begs, endRecs)[..n] == Summands(begs, endRecs);
    SumBetween(begs, endRecs, n, 0, hi);
    DivModEquation(RunningSum(begs, endRecs, n), n);
  }

  /** Both rows are written, with one average, between lo and hi. */
  predicate OneAverage(u: Outcome, t: Outcome, lo: int, hi: int) {
    u.Written? && t.Written? && u.row.avg == t.row.avg && lo <= u.row.avg <= hi
  }

  /** Without overflow the average lies between any bounds of what the records add to the sum. */
  lemma AverageWithin(begs: Records, endRecs: Records, lo: nat, hi: nat)
    requires SummandsWithin(begs, endRecs, lo, hi) && 1 <= |begs| && |begs| * hi < TWO_TO_THE_63
    ensures lo <= Average(begs, endRecs) <= hi
  {
    var n := |begs|;
    SumBetween(begs, endRecs, n, lo, hi);
    var sum := RunningSum(begs, endRecs, n);
    assert n * lo >= 0;
    QuotientBetween(sum, n, lo, hi);
  }

  /** When all records are present and the sum does not overflow, the average lies between the bounds. */
  lemma AverageBetween(begs: Records, endRecs: Records, lo: nat, hi: nat)
    requires AllPresent(begs, endRecs) && 1 <= |begs|
    requires |begs| * hi < TWO_TO_THE_63
    requires forall i :: 0 <= i < |begs| ==> lo <= ElapsedOf(begs[i], endRecs[i]) <= hi
    ensures AllReadable(begs, endRecs, |begs|) && lo <= Average(begs, endRecs) <= hi
  {
    AverageWithin(begs, endRecs, lo, hi);
  }

  /** The row by index and the row by elapsed are both written, and show the same average. */
  lemma BothRowsShowAverage(begs: Records, endRecs: Records, step: nat)
    requires 1 <= |begs| == |endRecs| <= INTEGER_MAX_VALUE && step > 0 && AllReadable(begs, endRecs, |begs|)
    ensures var a := Average(begs, endRecs);
      OneAverage(ReportBody(begs, endRecs, step, false), ReportBody(begs, endRecs, step, true), a, a)
  {
  }

  lemma QuotientBetween(sum: int, n: nat, lo: nat, hi: nat)
    requires n > 0 && n * lo <= sum <= n * hi && sum >= 0
    ensures lo <= TruncDiv(sum, n) <= hi
  {
    var q, r := sum / n, sum % n;
    assert sum == q * n + r;
    assert (q + 1) * n == q * n + n && (hi + 1) * n == hi * n + n;
    if q < lo { MulMonotone(q + 1, lo, n); }
    if q > hi { MulMonotone(hi + 1, q, n); }
  }

  // ----- Go

  /** time.Time.Sub saturates at the limits of a Duration. */
  function Sub(t: int, u: int): int {
    if t - u >= TWO_TO_THE_63 then TWO_TO_THE_63 - 1
    else if t - u < -TWO_TO_THE_63 then -TWO_TO_THE_63
    else t - u
  }

  /** A block with its eight timestamps; None is the zero time.Time of a timestamp never taken. */
  datatype LatencyBlock = LatencyBlock(idx: int, ts: seq<Option<int>>)

  type Blocks = seq<LatencyBlock>

  /** The zero time.Time, the start of year 1, in nanoseconds since the start of 1970. */
  const ZERO_TIME: int := -62135596800000000000

  function TimeAt(b: LatencyBlock, i: nat): int {
    if i < |b.ts| && b.ts[i].Some? then b.ts[i].value else ZERO_TIME
  }

  /**
   A block that was sent but never received: the zero time lies so far back that the elapsed time to it is
   the least Duration.
   */
  lemma LostBlockSaturates(b: LatencyBlock)
    requires |b.ts| > 2 && b.ts[0].Some? && b.ts[0].value >= 0 && b.ts[2].None?
    ensures Sub(TimeAt(b, 2), TimeAt(b, 0)) == -0x8000_0000_0000_0000
  {
  }

  function GoElapsed(blocks: Blocks, tsBegin: nat, tsEnd: nat): (data: seq<int>)
    ensures |data| == |blocks|
  {
    seq(|blocks|, i requires 0 <= i < |blocks| => Sub(TimeAt(blocks[i], tsEnd), TimeAt(blocks[i], tsBegin)))
  }

  /** The row's values, or nothing when the first sampled element does not exist. */
  function GoReportBody(blocks: Blocks, tsBegin: nat, tsEnd: nat, step: nat, needSort: bool): Option<seq<int>>
    requires |blocks| <= MAX_COUNT && step > 0
  {
    if |blocks| == 0 then None
    else
      var raw := GoElapsed(blocks, tsBegin, tsEnd);
      var data := if needSort then Sorted(raw) else raw;
      Some(RowOf(data, step) + [data[|data| - 1]])
  }

  /** GenThreadLantencyReportsBody on all the blocks. */
  method GenThreadLantencyReportsBody(blocks: array<LatencyBlock>, tsBegin: nat, tsEnd: nat,
                                      reportStep: nat, needSort: bool)
    returns (row: Option<seq<int>>)
    requires blocks.Length <= MAX_COUNT && reportStep > 0
    ensures row == GoReportBody(blocks[..], tsBegin, tsEnd, reportStep, needSort)
  {
    var cnt := blocks.Length;
    var elapseds := new int[cnt];
    for i := 0 to cnt
      invariant forall k :: 0 <= k < i ==>
        elapseds[k] == Sub(TimeAt(blocks[k], tsEnd), TimeAt(blocks[k], tsBegin))
    {
      elapseds[i] := Sub(TimeAt(blocks[i], tsEnd), TimeAt(blocks[i], tsBegin));
    }
    assert elapseds[..] == GoElapsed(blocks[..], tsBegin, tsEnd);
    if needSort {
      SortInPlace(elapseds);
    }
    if cnt == 0 { return None; }
    row := WriteGoRow(elapseds, reportStep);
  }

  method WriteGoRow(elapseds: array<int>, reportStep: nat) returns (row: Option<seq<int>>)
    requires 1 <= elapseds.Length <= MAX_COUNT && reportStep > 0
    ensures row == Some(RowOf(elapseds[..], reportStep) + [elapseds[..][elapseds.Length - 1]])
  {
    var vals := SampleRow(elapseds, Positions(elapseds.Length), reportStep);
    row := Some(vals + [elapseds[elapseds.Length - 1]]);
  }
}
