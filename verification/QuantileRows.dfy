/** What the columns of a report row show, by the exact integer index of each quantile. */
module QuantileRows {
  import opened Quantile
  import opened QuantileExact
  import opened LatencyReport

  /** The exact index of quantile q in data of length n, without floating point. */
  function SampledIndex(q: nat, n: nat): int
    requires q < 100
  {
    q * n / 100 - if ReadsOneLess(q, n) then 1 else 0
  }

  predicate IsSample(v: int, data: seq<int>, q: nat) {
    q < 100 && 0 <= SampledIndex(q, |data|) < |data| && v == data[SampledIndex(q, |data|)]
  }

  /** The samples at quantiles 0, step, 2*step and so on, all those below 100. */
  ghost predicate AreSamples(vals: seq<int>, data: seq<int>, step: nat) {
    && |vals| * step >= 100
    && forall c :: 0 <= c < |vals| ==> IsSample(vals[c], data, c * step)
  }

  lemma RowAt(data: seq<int>, step: nat, c: nat)
    requires step > 0 && 1 <= |data| <= MAX_COUNT && c < |Columns(0, step)|
    ensures Columns(0, step)[c] == c * step && IsSample(RowOf(data, step)[c], data, c * step)
  {
    ColumnAt(0, step, c);
    SampleAt(data, Positions(|data|), 0, step, c);
    PositionFormula(Columns(0, step)[c], |data|);
  }

  /** Every column of a row shows the element at the exact index of its quantile. */
  lemma RowSamples(data: seq<int>, step: nat)
    requires step > 0 && 1 <= |data| <= MAX_COUNT
    ensures AreSamples(RowOf(data, step), data, step)
  {
    ColumnCount(0, step);
    var vals := RowOf(data, step);
    forall c | 0 <= c < |vals| ensures IsSample(vals[c], data, c * step) {
      RowAt(data, step, c);
    }
  }

  /**
   The sorted row: each column is the element at the exact index of its quantile among the sorted data; the
   columns do not decrease, they start at the minimum of the unsorted data, stay below its maximum, and the
   maximum is what the last column shows.
   */
  lemma SortedRowSamples(data: seq<int>, step: nat)
    requires step > 0 && 1 <= |data| <= MAX_COUNT
    ensures var d := Sorted(data);
      var row := RowOf(d, step);
      && Ascending(d) && multiset(d) == multiset(data) && AreSamples(row, d, step)
      && Ascending(row) && |row| > 0
      && row[0] in data && (forall v :: v in data ==> row[0] <= v)
      && d[|d| - 1] in data && (forall v :: v in data ==> v <= d[|d| - 1])
  {
    SortedSorts(data);
    SortedRowOrdered(data, step);
    RowSamples(Sorted(data), step);
  }

  predicate ShowsSample(c: Cell, data: seq<int>, q: nat) {
    q < 100 && 0 <= SampledIndex(q, |data|) < |data| && Shows(c, data[SampledIndex(q, |data|)])
  }

  /** The cells of a row show the samples of data, and its last cell the last element. */
  ghost predicate ShowsRow(row: Row, data: seq<int>, step: nat) {
    && |row.cells| * step >= 100
    && (forall c :: 0 <= c < |row.cells| ==> ShowsSample(row.cells[c], data, c * step))
    && data != [] && Shows(row.last, data[|data| - 1])
  }

  lemma RowShowsData(row: Row, data: seq<int>, step: nat)
    requires step > 0 && 1 <= |data| <= MAX_COUNT
    requires row.cells == CellsOf(RowOf(data, step)) && row.last == CellOf(data[|data| - 1])
    ensures ShowsRow(row, data, step)
  {
    RowSamples(data, step);
    forall c | 0 <= c < |row.cells| ensures ShowsSample(row.cells[c], data, c * step) {
      assert IsSample(RowOf(data, step)[c], data, c * step);
    }
  }
}
