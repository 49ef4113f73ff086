/** Options, integer ranges and sums over sequences, shared by every protocol model. */
module Sequences {

  datatype Option<+T> = None | Some(value: T)

  /** The integers lo, lo+1, ..., hi-1. */
  function Range(lo: int, hi: int): (r: seq<int>)
    requires lo <= hi
    ensures |r| == hi - lo
    ensures forall i :: 0 <= i < |r| ==> r[i] == lo + i
  {
    seq(hi - lo, i => lo + i)
  }

  /** The sum of f over the elements of s. */
  function SumBy<T>(s: seq<T>, f: T -> int): int
  {
    if s == [] then 0 else f(s[0]) + SumBy(s[1..], f)
  }

  /** Replacing one element changes the sum by the difference of the two values. */
  lemma {:induction false} SumByUpdate<T>(s: seq<T>, i: nat, x: T, f: T -> int)
    requires i < |s|
    ensures SumBy(s[i := x], f) == SumBy(s, f) - f(s[i]) + f(x)
  {
    if i == 0 {
      assert s[i := x][1..] == s[1..];
    } else {
      assert s[i := x][1..] == s[1..][i - 1 := x];
      SumByUpdate(s[1..], i - 1, x, f);
    }
  }

  lemma {:induction false} SumByAppend<T>(s: seq<T>, x: T, f: T -> int)
    ensures SumBy(s + [x], f) == SumBy(s, f) + f(x)
  {
    if s == [] {
      assert s + [x] == [x];
    } else {
      assert (s + [x])[1..] == s[1..] + [x];
      SumByAppend(s[1..], x, f);
    }
  }

  /** A sum of values in lo..hi lies between |s|*lo and |s|*hi. */
  lemma {:induction false} SumByBounds<T>(s: seq<T>, f: T -> int, lo: int, hi: int)
    requires forall i :: 0 <= i < |s| ==> lo <= f(s[i]) <= hi
    ensures |s| * lo <= SumBy(s, f) <= |s| * hi
  {
    if s == [] {
    } else {
      SumByBounds(s[1..], f, lo, hi);
      assert |s| * lo == |s[1..]| * lo + lo && |s| * hi == |s[1..]| * hi + hi;
    }
  }

  /** A sum that reaches its upper bound |s|*hi has every term equal to hi. */
  lemma {:induction false} SumByReachesTop<T>(s: seq<T>, f: T -> int, hi: int)
    requires forall i :: 0 <= i < |s| ==> f(s[i]) <= hi
    requires SumBy(s, f) >= |s| * hi
    ensures forall i :: 0 <= i < |s| ==> f(s[i]) == hi
  {
    if s == [] {
    } else {
      SumByUpper(s[1..], f, hi);
      assert |s| * hi == |s[1..]| * hi + hi;
      SumByReachesTop(s[1..], f, hi);
      forall i | 0 <= i < |s| ensures f(s[i]) == hi {
        if i > 0 { assert s[i] == s[1..][i - 1]; }
      }
    }
  }

  lemma {:induction false} SumByUpper<T>(s: seq<T>, f: T -> int, hi: int)
    requires forall i :: 0 <= i < |s| ==> f(s[i]) <= hi
    ensures SumBy(s, f) <= |s| * hi
  {
    if s == [] {
    } else {
      SumByUpper(s[1..], f, hi);
      assert |s| * hi == |s[1..]| * hi + hi;
    }
  }

  /** A sum of nonnegative terms is at least each of its terms. */
  lemma {:induction false} SumByAtLeast<T>(s: seq<T>, f: T -> int, k: nat)
    requires k < |s|
    requires forall i :: 0 <= i < |s| ==> 0 <= f(s[i])
    ensures f(s[k]) <= SumBy(s, f)
  {
    if k == 0 {
      SumByNonNegative(s[1..], f);
    } else {
      SumByAtLeast(s[1..], f, k - 1);
    }
  }

  lemma {:induction false} SumByNonNegative<T>(s: seq<T>, f: T -> int)
    requires forall i :: 0 <= i < |s| ==> 0 <= f(s[i])
    ensures 0 <= SumBy(s, f)
  {
    if s == [] {
    } else {
      SumByNonNegative(s[1..], f);
    }
  }

  /** Two sequences whose terms agree have the same sum. */
  lemma {:induction false} SumByAgree<T, U>(s: seq<T>, f: T -> int, t: seq<U>, g: U -> int)
    requires |s| == |t|
    requires forall i :: 0 <= i < |s| ==> f(s[i]) == g(t[i])
    ensures SumBy(s, f) == SumBy(t, g)
  {
    if s == [] {
    } else {
      SumByAgree(s[1..], f, t[1..], g);
    }
  }
}
