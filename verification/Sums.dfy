/** Sums over a stretch of a sequence, which both scans compute. */
module Sums {
  /** The sum of the elements `lo`, ..., `hi - 1`. */
  function Sum(x: seq<int>, lo: nat, hi: nat): int
    requires lo <= hi <= |x|
  {
    if lo == hi then 0 else Sum(x, lo, hi - 1) + x[hi - 1]
  }

  function PrefixSums(x: seq<int>): (r: seq<int>)
    ensures |r| == |x|
  {
    seq(|x|, i requires 0 <= i < |x| => Sum(x, 0, i + 1))
  }

  lemma {:induction false} SumSplit(x: seq<int>, lo: nat, mid: nat, hi: nat)
    requires lo <= mid <= hi <= |x|
    ensures Sum(x, lo, hi) == Sum(x, lo, mid) + Sum(x, mid, hi)
  {
    if mid < hi {
      SumSplit(x, lo, mid, hi - 1);
    }
  }
}
