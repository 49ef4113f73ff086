/** How the two harnesses divide the record ids among their producers. */
module WorkSlices {
  import opened Sequences
  import opened Arithmetic

  /** plans[p][k] is the k-th id that producer p sends. */
  type Plans = seq<seq<int>>

  predicate InPlan(plans: Plans, p: int, k: int) {
    0 <= p < |plans| && 0 <= k < |plans[p]|
  }

  function IdOf(plans: Plans, p: int, k: int): int
    requires InPlan(plans, p, k)
  {
    plans[p][k]
  }

  function Length(plan: seq<int>): int { |plan| }

  /** Every id in [0, total) belongs to one position of one producer, and there are no other ids. */
  ghost predicate Tiles(plans: Plans, total: nat) {
    && (forall p, k :: InPlan(plans, p, k) ==> 0 <= IdOf(plans, p, k) < total)
    && (forall p, k, q, j ::
          (InPlan(plans, p, k) && InPlan(plans, q, j) && IdOf(plans, p, k) == IdOf(plans, q, j))
          ==> p == q && k == j)
    && (forall id :: 0 <= id < total ==> Owned(plans, id))
    && SumBy(plans, Length) == total
  }

  ghost predicate Owned(plans: Plans, id: int) {
    exists p, k :: InPlan(plans, p, k) && IdOf(plans, p, k) == id
  }

  // ----- Java: consecutive blocks of rounds * records ids

  function JavaPlan(producerId: nat, count: nat): (plan: seq<int>)
    ensures |plan| == count
  {
    Range(producerId * count, producerId * count + count)
  }

  function JavaPlans(producers: nat, count: nat): (plans: Plans)
    ensures |plans| == producers
  {
    seq(producers, p requires 0 <= p < producers => JavaPlan(p, count))
  }

  /** The nested loops of the Java producer visit the ids of its block, one after another. */
  method JavaProducerIds(producerId: nat, totalRounds: nat, recordPerRound: nat) returns (ids: seq<int>)
    ensures ids == JavaPlan(producerId, totalRounds * recordPerRound)
  {
    var count := totalRounds * recordPerRound;
    var offset := producerId * count;
    ids := [];
    for round := 0 to totalRounds
      invariant ids == Range(offset, offset + round * recordPerRound)
    {
      for i := 0 to recordPerRound
        invariant ids == Range(offset, offset + round * recordPerRound + i)
      {
        ids := ids + [offset + round * recordPerRound + i];
      }
      assert (round + 1) * recordPerRound == round * recordPerRound + recordPerRound;
    }
  }

  /** Producer and position are the quotient and the remainder of the id. */
  lemma JavaPosition(producers: nat, count: nat, p: int, k: int)
    requires InPlan(JavaPlans(producers, count), p, k)
    ensures var v := IdOf(JavaPlans(producers, count), p, k);
      count > 0 && v / count == p && v % count == k && 0 <= v < producers * count
  {
    var v := IdOf(JavaPlans(producers, count), p, k);
    assert v == count * p + k;
    DivModUnique(v, count, p, k);
    QuotientRange(v, producers, count);
  }

  lemma JavaOwned(producers: nat, count: nat, id: nat)
    requires id < producers * count
    ensures Owned(JavaPlans(producers, count), id)
  {
    assert producers * 0 == 0;
    QuotientRange(id, producers, count);
    var p, k := id / count, id % count;
    assert id == count * p + k;
    assert InPlan(JavaPlans(producers, count), p, k) && IdOf(JavaPlans(producers, count), p, k) == id;
  }

  lemma JavaTiles(producers: nat, count: nat)
    ensures Tiles(JavaPlans(producers, count), producers * count)
  {
    var plans := JavaPlans(producers, count);
    forall p, k | InPlan(plans, p, k)
      ensures var v := IdOf(plans, p, k);
        count > 0 && v / count == p && v % count == k && 0 <= v < producers * count
    {
      JavaPosition(producers, count, p, k);
    }
    forall id | 0 <= id < producers * count ensures Owned(plans, id) {
      JavaOwned(producers, count, id);
    }
    SumByBounds(plans, Length, count, count);
  }

  // ----- Go: equal slices of every loop, the last one taking the rest

  function StartIdx(i: nat, producers: nat, cnt: nat): (s: nat)
    requires producers > 0
  {
    i * (cnt / producers)
  }

  function EndIdx(i: nat, producers: nat, cnt: nat): (e: nat)
    requires producers > 0
  {
    if i == producers - 1 then cnt else (i + 1) * (cnt / producers)
  }

  lemma SliceBounds(i: nat, producers: nat, cnt: nat)
    requires i < producers
    ensures StartIdx(i, producers, cnt) <= EndIdx(i, producers, cnt) <= cnt
  {
    var q := cnt / producers;
    assert producers * q + cnt % producers == cnt;
    MulMonotone(i + 1, producers, q);
  }

  /** The ids of a slice, loop after loop. */
  function SlicePlan(loops: nat, cnt: nat, lo: nat, hi: nat): (plan: seq<int>)
    requires lo <= hi
    ensures |plan| == loops * (hi - lo)
  {
    if loops == 0 then []
    else
      assert loops * (hi - lo) == (loops - 1) * (hi - lo) + (hi - lo);
      SlicePlan(loops - 1, cnt, lo, hi) + Range((loops - 1) * cnt + lo, (loops - 1) * cnt + hi)
  }

  function GoPlan(i: nat, loops: nat, cnt: nat, producers: nat): seq<int>
    requires i < producers
  {
    SliceBounds(i, producers, cnt);
    SlicePlan(loops, cnt, StartIdx(i, producers, cnt), EndIdx(i, producers, cnt))
  }

  function GoPlans(loops: nat, cnt: nat, producers: nat): (plans: Plans)
    requires producers > 0
    ensures |plans| == producers
  {
    seq(producers, i requires 0 <= i < producers => GoPlan(i, loops, cnt, producers))
  }

  /** The nested loops of the Go producer. */
  method GoProducerIds(i: nat, loops: nat, cntPerLoop: nat, cntProducer: nat) returns (ids: seq<int>)
    requires i < cntProducer
    ensures ids == GoPlan(i, loops, cntPerLoop, cntProducer)
  {
    SliceBounds(i, cntProducer, cntPerLoop);
    var startIdx := i * (cntPerLoop / cntProducer);
    var endIdx := (i + 1) * (cntPerLoop / cntProducer);
    if i == cntProducer - 1 {
      endIdx := cntPerLoop;
    }
    ids := [];
    for l := 0 to loops
      invariant ids == SlicePlan(l, cntPerLoop, startIdx, endIdx)
    {
      for j := startIdx to endIdx
        invariant ids == SlicePlan(l, cntPerLoop, startIdx, endIdx)
                       + Range(l * cntPerLoop + startIdx, l * cntPerLoop + j)
      {
        ids := ids + [l * cntPerLoop + j];
      }
    }
  }

  /** Position k of a slice's plan, in terms of its id v: loop v / cnt, offset v % cnt. */
  ghost predicate AtPosition(cnt: nat, lo: nat, hi: nat, loops: nat, k: int, v: int) {
    cnt > 0 && 0 <= v / cnt < loops && lo <= v % cnt < hi && k == (v / cnt) * (hi - lo) + v % cnt - lo
  }

  lemma {:induction false} SlicePlanPosition(loops: nat, cnt: nat, lo: nat, hi: nat, k: nat)
    requires lo <= hi <= cnt && k < |SlicePlan(loops, cnt, lo, hi)|
    ensures AtPosition(cnt, lo, hi, loops, k, SlicePlan(loops, cnt, lo, hi)[k])
  {
    var m := |SlicePlan(loops - 1, cnt, lo, hi)|;
    if k < m {
      SlicePlanPosition(loops - 1, cnt, lo, hi, k);
    } else {
      SlicePlanLast(loops, cnt, lo, hi, k - m);
    }
  }

  lemma SlicePlanLast(loops: nat, cnt: nat, lo: nat, hi: nat, d: nat)
    requires 0 < loops && lo <= hi <= cnt && d < hi - lo
    ensures AtPosition(cnt, lo, hi, loops, (loops - 1) * (hi - lo) + d, (loops - 1) * cnt + lo + d)
  {
    var v := (loops - 1) * cnt + lo + d;
    assert v == cnt * (loops - 1) + (lo + d);
    DivModUnique(v, cnt, loops - 1, lo + d);
  }

  lemma {:induction false} SlicePlanCovers(loops: nat, cnt: nat, lo: nat, hi: nat, v: int, k: int)
    requires lo <= hi <= cnt && AtPosition(cnt, lo, hi, loops, k, v)
    ensures 0 <= k < |SlicePlan(loops, cnt, lo, hi)| && SlicePlan(loops, cnt, lo, hi)[k] == v
  {
    var l, j, w := v / cnt, v % cnt, hi - lo;
    assert v == l * cnt + j;
    assert loops * w == (loops - 1) * w + w;
    MulMonotone(0, l, w);
    if l < loops - 1 {
      SlicePlanCovers(loops - 1, cnt, lo, hi, v, k);
    } else {
      assert l == loops - 1;
      assert k == |SlicePlan(loops - 1, cnt, lo, hi)| + (j - lo);
    }
  }

  /** The slice that an offset within a loop falls into. */
  function SliceOf(j: nat, producers: nat, cnt: nat): (i: nat)
    requires producers > 0
    ensures i < producers
  {
    var q := cnt / producers;
    if q == 0 || j / q >= producers then producers - 1 else j / q
  }

  lemma SliceOfContains(j: nat, producers: nat, cnt: nat)
    requires producers > 0 && j < cnt
    ensures var i := SliceOf(j, producers, cnt);
      StartIdx(i, producers, cnt) <= j < EndIdx(i, producers, cnt)
  {
    var q := cnt / producers;
    assert producers * q + cnt % producers == cnt;
    if q == 0 {
    } else {
      var d := j / q;
      assert j == q * d + j % q;
      if d >= producers {
        assert q * (d - producers + 1) >= 0;
        assert q * (d - producers + 1) == q * d - (producers - 1) * q;
      }
    }
  }

  lemma SliceOfUnique(i: nat, j: nat, producers: nat, cnt: nat)
    requires i < producers && StartIdx(i, producers, cnt) <= j < EndIdx(i, producers, cnt)
    ensures i == SliceOf(j, producers, cnt)
  {
    var q := cnt / producers;
    if q > 0 {
      if i < producers - 1 {
        assert (i + 1) * q == q * i + q;
        DivModUnique(j, q, i, j - q * i);
      } else {
        LastSlice(j, q, producers - 1);
      }
    }
  }

  lemma LastSlice(j: nat, q: nat, i: nat)
    requires q > 0 && i * q <= j
    ensures j / q >= i
  {
    if j / q < i { QuotientRange(j, i, q); }
  }

  lemma GoTiles(loops: nat, cnt: nat, producers: nat)
    requires producers > 0
    ensures Tiles(GoPlans(loops, cnt, producers), loops * cnt)
  {
    var plans := GoPlans(loops, cnt, producers);
    forall p, k | InPlan(plans, p, k)
      ensures GoPosition(loops, cnt, producers, p, k, IdOf(plans, p, k))
    {
      var lo, hi := StartIdx(p, producers, cnt), EndIdx(p, producers, cnt);
      SliceBounds(p, producers, cnt);
      var v := IdOf(plans, p, k);
      SlicePlanPosition(loops, cnt, lo, hi, k);
      SliceOfUnique(p, v % cnt, producers, cnt);
      QuotientRange(v, loops, cnt);
    }
    forall id | 0 <= id < loops * cnt ensures Owned(plans, id) {
      GoOwned(loops, cnt, producers, id);
    }
    GoLengths(loops, cnt, producers, producers);
    assert plans[..producers] == plans;
  }

  // ----- What the slices are, in terms of the division of the work alone

  lemma SliceWidth(i: nat, producers: nat, cnt: nat)
    requires i < producers
    ensures StartIdx(i, producers, cnt) <= EndIdx(i, producers, cnt)
    ensures EndIdx(i, producers, cnt) - StartIdx(i, producers, cnt)
         == cnt / producers + if i == producers - 1 then cnt % producers else 0
  {
    SliceBounds(i, producers, cnt);
    var q := cnt / producers;
    DivModEquation(cnt, producers);
    assert (i + 1) * q == i * q + q;
  }

  /** Every producer has the same share of each loop, and the last has the remainder besides. */
  ghost predicate EvenShares(plans: Plans, loops: nat, cnt: nat) {
    && |plans| > 0
    && (forall p :: 0 <= p < |plans| - 1 ==> |plans[p]| == loops * (cnt / |plans|))
    && |plans[|plans| - 1]| == loops * (cnt / |plans|) + loops * (cnt % |plans|)
  }

  lemma GoShare(p: nat, loops: nat, cnt: nat, producers: nat)
    requires p < producers
    ensures p < producers - 1 ==> |GoPlan(p, loops, cnt, producers)| == loops * (cnt / producers)
    ensures p == producers - 1 ==>
      |GoPlan(p, loops, cnt, producers)| == loops * (cnt / producers) + loops * (cnt % producers)
  {
    SliceWidth(p, producers, cnt);
    Distribute(loops, cnt / producers, cnt % producers);
  }

  lemma Distribute(a: int, b: int, c: int)
    ensures a * (b + c) == a * b + a * c
  {
  }

  lemma GoShares(loops: nat, cnt: nat, producers: nat)
    requires producers > 0
    ensures EvenShares(GoPlans(loops, cnt, producers), loops, cnt)
  {
    var plans := GoPlans(loops, cnt, producers);
    forall p | 0 <= p < producers - 1 ensures |plans[p]| == loops * (cnt / producers) {
      GoShare(p, loops, cnt, producers);
    }
    GoShare(producers - 1, loops, cnt, producers);
  }

  lemma SlicesFollow(p: nat, q: nat, producers: nat, cnt: nat)
    requires p < q < producers
    ensures EndIdx(p, producers, cnt) <= StartIdx(q, producers, cnt)
  {
    MulMonotone(p + 1, q, cnt / producers);
  }

  lemma GoOffsetsOrdered(loops: nat, cnt: nat, producers: nat, p: nat, k: int, q: nat, j: int)
    requires producers > 0 && p < q
    requires InPlan(GoPlans(loops, cnt, producers), p, k) && InPlan(GoPlans(loops, cnt, producers), q, j)
    ensures var plans := GoPlans(loops, cnt, producers);
      cnt > 0 && IdOf(plans, p, k) % cnt < IdOf(plans, q, j) % cnt
  {
    SliceBounds(p, producers, cnt);
    SliceBounds(q, producers, cnt);
    SlicePlanPosition(loops, cnt, StartIdx(p, producers, cnt), EndIdx(p, producers, cnt), k);
    SlicePlanPosition(loops, cnt, StartIdx(q, producers, cnt), EndIdx(q, producers, cnt), j);
    SlicesFollow(p, q, producers, cnt);
  }

  /** Within a loop, producers with smaller numbers have the smaller offsets. */
  ghost predicate OffsetsOrdered(plans: Plans, cnt: nat) {
    forall p, k, q, j :: InPlan(plans, p, k) && InPlan(plans, q, j) && p < q ==>
      cnt > 0 && IdOf(plans, p, k) % cnt < IdOf(plans, q, j) % cnt
  }

  lemma GoOffsets(loops: nat, cnt: nat, producers: nat)
    requires producers > 0
    ensures OffsetsOrdered(GoPlans(loops, cnt, producers), cnt)
  {
    var plans := GoPlans(loops, cnt, producers);
    forall p, k, q, j | InPlan(plans, p, k) && InPlan(plans, q, j) && p < q
      ensures cnt > 0 && IdOf(plans, p, k) % cnt < IdOf(plans, q, j) % cnt
    {
      GoOffsetsOrdered(loops, cnt, producers, p, k, q, j);
    }
  }

  /** Ascending ids below n. */
  predicate AscendsBelow(plan: seq<int>, n: int) {
    && (forall k :: 0 <= k < |plan| ==> plan[k] < n)
    && (forall k, m :: 0 <= k < m < |plan| ==> plan[k] < plan[m])
  }

  lemma AppendRange(plan: seq<int>, n: int, lo: int, hi: int, limit: int)
    requires AscendsBelow(plan, n) && n <= lo <= hi <= limit
    ensures AscendsBelow(plan + Range(lo, hi), limit)
  {
  }

  lemma {:induction false} SlicePlanAscends(loops: nat, cnt: nat, lo: nat, hi: nat)
    requires lo <= hi <= cnt
    ensures AscendsBelow(SlicePlan(loops, cnt, lo, hi), loops * cnt)
  {
    if loops == 0 {
    } else {
      SlicePlanAscends(loops - 1, cnt, lo, hi);
      var n := (loops - 1) * cnt;
      assert loops * cnt == n + cnt;
      AppendRange(SlicePlan(loops - 1, cnt, lo, hi), n, n + lo, n + hi, n + cnt);
    }
  }

  /** Each producer sends its ids in increasing order. */
  ghost predicate EachAscends(plans: Plans) {
    forall p, k, m :: InPlan(plans, p, k) && InPlan(plans, p, m) && k < m ==>
      IdOf(plans, p, k) < IdOf(plans, p, m)
  }

  lemma GoAscends(loops: nat, cnt: nat, producers: nat)
    requires producers > 0
    ensures EachAscends(GoPlans(loops, cnt, producers))
  {
    var plans := GoPlans(loops, cnt, producers);
    forall p: nat | p < producers ensures AscendsBelow(plans[p], loops * cnt) {
      SliceBounds(p, producers, cnt);
      SlicePlanAscends(loops, cnt, StartIdx(p, producers, cnt), EndIdx(p, producers, cnt));
    }
  }

  /**
   The division of the work, which together with the tiling leaves no other plans: equal shares with the
   remainder for the last producer, smaller offsets for smaller producer numbers, and each producer's ids
   in increasing order.
   */
  lemma GoDivision(loops: nat, cnt: nat, producers: nat)
    requires producers > 0
    ensures var plans := GoPlans(loops, cnt, producers);
      EvenShares(plans, loops, cnt) && OffsetsOrdered(plans, cnt) && EachAscends(plans)
  {
    GoShares(loops, cnt, producers);
    GoOffsets(loops, cnt, producers);
    GoAscends(loops, cnt, producers);
  }

  /** Producer and position are functions of the id. */
  ghost predicate GoPosition(loops: nat, cnt: nat, producers: nat, p: nat, k: int, v: int) {
    && 0 <= v < loops * cnt && cnt > 0 && producers > 0
    && p == SliceOf(v % cnt, producers, cnt)
    && k == (v / cnt) * (EndIdx(p, producers, cnt) - StartIdx(p, producers, cnt))
              + v % cnt - StartIdx(p, producers, cnt)
  }

  lemma GoOwned(loops: nat, cnt: nat, producers: nat, id: nat)
    requires producers > 0 && id < loops * cnt
    ensures Owned(GoPlans(loops, cnt, producers), id)
  {
    var plans := GoPlans(loops, cnt, producers);
    assert loops * 0 == 0;
    QuotientRange(id, loops, cnt);
    var p := SliceOf(id % cnt, producers, cnt);
    SliceOfContains(id % cnt, producers, cnt);
    SliceBounds(p, producers, cnt);
    var lo, hi := StartIdx(p, producers, cnt), EndIdx(p, producers, cnt);
    var k := (id / cnt) * (hi - lo) + id % cnt - lo;
    SlicePlanCovers(loops, cnt, lo, hi, id, k);
    assert InPlan(plans, p, k) && IdOf(plans, p, k) == id;
  }

  lemma NextSlice(i: nat, producers: nat, cnt: nat)
    requires i + 1 < producers
    ensures EndIdx(i, producers, cnt) == StartIdx(i + 1, producers, cnt)
  {
  }

  lemma AddSlice(loops: nat, lo: nat, hi: nat, before: int, plan: int)
    requires before == loops * lo && plan == loops * (hi - lo)
    ensures before + plan == loops * hi
  {
    Distribute(loops, lo, hi - lo);
  }

  /** The first n slices of all loops together. */
  lemma {:induction false} GoLengths(loops: nat, cnt: nat, producers: nat, n: nat)
    requires 0 < n <= producers
    ensures SumBy(GoPlans(loops, cnt, producers)[..n], Length) == loops * EndIdx(n - 1, producers, cnt)
  {
    var plans := GoPlans(loops, cnt, producers);
    SliceBounds(n - 1, producers, cnt);
    assert plans[..n] == plans[..n - 1] + [plans[n - 1]];
    SumByAppend(plans[..n - 1], plans[n - 1], Length);
    var lo, hi := StartIdx(n - 1, producers, cnt), EndIdx(n - 1, producers, cnt);
    if n == 1 {
      assert plans[..0] == [] && lo == 0;
    } else {
      GoLengths(loops, cnt, producers, n - 1);
      NextSlice(n - 2, producers, cnt);
    }
    AddSlice(loops, lo, hi, SumBy(plans[..n - 1], Length), |plans[n - 1]|);
  }
}
