/**
 * The kernel of `parallel_partial_sum_pairwise`, one thread for each element, executed in lock step:
 * in step `g` every thread with `2^g <= i` adds the element `2^g` to the left, reading one of two
 * arrays and writing the other. A thread that has run out of work copies its result back once if
 * its last step wrote the buffer.
 */
module LockStepScan {
  import opened Sums

  datatype Arrays = Arrays(range: seq<int>, buffer: seq<int>)

  function Pow2(k: nat): (p: nat)
    ensures p > 0
  {
    if k == 0 then 1 else 2 * Pow2(k - 1)
  }

  lemma {:induction false} Pow2Monotone(a: nat, b: nat)
    requires a <= b
    ensures Pow2(a) <= Pow2(b)
    decreases b - a
  {
    if a < b {
      Pow2Monotone(a + 1, b);
    }
  }

  lemma {:induction false} Pow2Exceeds(n: nat)
    ensures n < Pow2(n)
  {
    if n > 0 {
      Pow2Exceeds(n - 1);
    }
  }

  /** Thread `i` takes part in step `g`. */
  predicate Active(i: nat, g: nat) {
    Pow2(g) <= i
  }

  /** Thread `i` has no more steps and copies its result out of the buffer, while others do step `g`. */
  predicate Copies(i: nat, g: nat) {
    g % 2 == 1 && Pow2(g - 1) <= i < Pow2(g)
  }

  /** What step `g` leaves in the cell of thread `i` in the array that it writes. */
  function NewCell(a: Arrays, g: nat, i: nat): int
    requires |a.range| == |a.buffer| && i < |a.range|
  {
    if g % 2 == 0 then
      if Active(i, g) then a.range[i] + a.range[i - Pow2(g)] else a.buffer[i]
    else if Active(i, g) then a.buffer[i] + a.buffer[i - Pow2(g)]
    else if Copies(i, g) then a.buffer[i]
    else a.range[i]
  }

  function ApplyStep(a: Arrays, g: nat): (r: Arrays)
    requires |a.range| == |a.buffer|
    ensures |r.range| == |r.buffer| == |a.range|
  {
    var cells := seq(|a.range|, (i: nat) requires i < |a.range| => NewCell(a, g, i));
    if g % 2 == 0 then a.(buffer := cells) else a.(range := cells)
  }

  /** The two arrays before step `g`. The buffer is value-initialised. */
  function LockStep(x: seq<int>, g: nat): (a: Arrays)
    ensures |a.range| == |a.buffer| == |x|
  {
    if g == 0 then Arrays(x, seq(|x|, (i: nat) => 0)) else ApplyStep(LockStep(x, g - 1), g - 1)
  }

  /** The result: enough steps for every thread to run out of work. */
  function Result(x: seq<int>): (r: seq<int>)
    ensures |r| == |x|
  {
    LockStep(x, |x| + 1).range
  }

  // ---------- what the scan computes ----------

  /** The number of steps of thread `i`. */
  function Steps(i: nat): (l: nat)
    ensures i < Pow2(l)
    ensures l > 0 ==> Pow2(l - 1) <= i
  {
    if i == 0 then 0 else 1 + Steps(i / 2)
  }

  lemma {:induction false} StepsUnique(i: nat, l: nat)
    requires i < Pow2(l) && (l > 0 ==> Pow2(l - 1) <= i)
    ensures Steps(i) == l
  {
    if Steps(i) < l {
      Pow2Monotone(Steps(i), l - 1);
    } else if l < Steps(i) {
      Pow2Monotone(l, Steps(i) - 1);
    }
  }

  lemma {:induction false} StepsAtMost(i: nat, g: nat)
    ensures Steps(i) <= g <==> i < Pow2(g)
  {
    if Steps(i) <= g {
      Pow2Monotone(Steps(i), g);
    } else {
      Pow2Monotone(g, Steps(i) - 1);
    }
  }

  /** The result at `i` is the sum of the elements from `Low(i)` to `i`. In its last step thread `i`
      adds what the array being read holds for `j`, `i` without its highest bit. Reading the range
      gives the result at `j`; the buffer has it only if the last step of `j` wrote the buffer, and
      otherwise still holds what `j` had one step earlier. */
  function Low(i: nat): (lo: nat)
    ensures lo <= i
    decreases i, 0
  {
    if i == 0 then 0
    else
      var s := Steps(i) - 1;
      if s % 2 == 0 then Low(i - Pow2(s)) else BufferLow(i - Pow2(s))
  }

  /** The first element in what the buffer holds for `j` when thread `j` has no steps left. */
  function BufferLow(j: nat): (lo: nat)
    ensures lo <= j + 1
    decreases j, 1
  {
    var l := Steps(j);
    if l % 2 == 1 then Low(j)
    else if l == 0 then j + 1
    else j + 1 - Pow2(l - 1)
  }

  function Window(x: seq<int>, i: nat, w: nat): int
    requires i < |x| && w <= i + 1
  {
    Sum(x, i + 1 - w, i + 1)
  }

  /** The cells of thread `i` before step `g`. */
  ghost predicate CellOk(x: seq<int>, g: nat, i: nat)
    requires i < |x|
  {
    var a := LockStep(x, g);
    if Active(i, g) then
      && (if g % 2 == 0 then a.range[i] else a.buffer[i]) == Window(x, i, Pow2(g))
      && (g > 0 ==> (if g % 2 == 0 then a.buffer[i] else a.range[i]) == Window(x, i, Pow2(g - 1)))
    else
      && (Steps(i) < g || g % 2 == 0 ==> a.range[i] == Sum(x, Low(i), i + 1))
      && a.buffer[i] == Sum(x, BufferLow(i), i + 1)
  }

  lemma {:induction false} ActiveCell(x: seq<int>, g: nat, i: nat)
    requires i < |x| && Active(i, g + 1)
    requires CellOk(x, g, i) && CellOk(x, g, i - Pow2(g))
    ensures CellOk(x, g + 1, i)
  {
    hide Sum, Low, BufferLow, Steps, LockStep;
    var w := Pow2(g);
    StepCells(x, g, i);
    SumSplit(x, i + 1 - 2 * w, i + 1 - w, i + 1);
  }

  /** The first element that thread `i` sees in its last step, step `g`. */
  function ReadLow(i: nat, g: nat): (lo: nat)
    requires Pow2(g) <= i
    ensures lo <= i + 1 - Pow2(g)
  {
    if g % 2 == 0 then Low(i - Pow2(g)) else BufferLow(i - Pow2(g))
  }

  lemma {:induction false} LowStep(i: nat, g: nat)
    requires Pow2(g) <= i < Pow2(g + 1)
    ensures Low(i) == ReadLow(i, g)
  {
    StepsUnique(i, g + 1);
  }

  lemma {:induction false} BufferLowStep(i: nat, g: nat)
    requires Pow2(g) <= i < Pow2(g + 1)
    ensures BufferLow(i) == if g % 2 == 0 then Low(i) else i + 1 - Pow2(g)
  {
    StepsUnique(i, g + 1);
  }

  lemma {:induction false} LastSum(x: seq<int>, g: nat, i: nat)
    requires i < |x| && Pow2(g) <= i < Pow2(g + 1)
    ensures Sum(x, Low(i), i + 1) == Sum(x, ReadLow(i, g), i - Pow2(g) + 1) + Window(x, i, Pow2(g))
  {
    LowStep(i, g);
    SumSplit(x, Low(i), i - Pow2(g) + 1, i + 1);
  }

  lemma {:induction false} StepCells(x: seq<int>, g: nat, i: nat)
    requires i < |x|
    ensures var (a, b) := (LockStep(x, g), LockStep(x, g + 1));
      && b.range[i] == (if g % 2 == 0 then a.range[i] else NewCell(a, g, i))
      && b.buffer[i] == (if g % 2 == 0 then NewCell(a, g, i) else a.buffer[i])
  {
  }

  /** The cell that step `g` reads for index `i`. */
  function Source(a: Arrays, g: nat, i: nat): int
    requires |a.range| == |a.buffer| && i < |a.range|
  {
    if g % 2 == 1 then a.buffer[i] else a.range[i]
  }

  /** A step does not write what it reads. */
  lemma {:induction false} SourceKept(x: seq<int>, g: nat, i: nat)
    requires i < |x|
    ensures Source(LockStep(x, g + 1), g, i) == Source(LockStep(x, g), g, i)
  {
    StepCells(x, g, i);
  }

  lemma {:induction false} LastEvenStep(x: seq<int>, g: nat, i: nat)
    requires i < |x| && Active(i, g) && !Active(i, g + 1) && g % 2 == 0
    requires CellOk(x, g, i) && CellOk(x, g, i - Pow2(g))
    ensures CellOk(x, g + 1, i)
  {
    hide Sum, Low, BufferLow, Steps, LockStep;
    LastSum(x, g, i);
    BufferLowStep(i, g);
    StepsUnique(i, g + 1);
    StepCells(x, g, i);
    assert !Active(i - Pow2(g), g);
  }

  lemma {:induction false} LastOddStep(x: seq<int>, g: nat, i: nat)
    requires i < |x| && Active(i, g) && !Active(i, g + 1) && g % 2 == 1
    requires CellOk(x, g, i) && CellOk(x, g, i - Pow2(g))
    ensures CellOk(x, g + 1, i)
  {
    hide Sum, Low, BufferLow, Steps, LockStep;
    LastSum(x, g, i);
    BufferLowStep(i, g);
    StepsUnique(i, g + 1);
    StepCells(x, g, i);
    assert !Active(i - Pow2(g), g);
  }

  lemma {:induction false} IdleCell(x: seq<int>, g: nat, i: nat)
    requires i < |x| && !Active(i, g) && CellOk(x, g, i)
    ensures CellOk(x, g + 1, i)
  {
    StepsAtMost(i, g);
    Pow2Monotone(g, g + 1);
    if Copies(i, g) {
      StepsUnique(i, g);
    } else if Steps(i) == g && g > 0 {
      assert Pow2(g - 1) <= i;
    }
  }

  lemma {:induction false} FirstCell(x: seq<int>, i: nat)
    requires i < |x|
    ensures CellOk(x, 0, i)
  {
    if i > 0 {
      assert Window(x, i, 1) == Sum(x, i, i) + x[i];
    } else {
      assert Steps(0) == 0;
      assert Sum(x, 0, 1) == Sum(x, 0, 0) + x[0];
    }
  }

  lemma {:induction false} NextCell(x: seq<int>, g: nat, i: nat)
    requires i < |x| && CellOk(x, g, i)
    requires Active(i, g) ==> CellOk(x, g, i - Pow2(g))
    ensures CellOk(x, g + 1, i)
  {
    if Active(i, g + 1) {
      Pow2Monotone(g, g + 1);
      ActiveCell(x, g, i);
    } else if Active(i, g) {
      if g % 2 == 0 { LastEvenStep(x, g, i); } else { LastOddStep(x, g, i); }
    } else {
      IdleCell(x, g, i);
    }
  }

  lemma {:induction false} AllCells(x: seq<int>, g: nat)
    ensures forall i :: 0 <= i < |x| ==> CellOk(x, g, i)
  {
    if g == 0 {
      forall i | 0 <= i < |x| ensures CellOk(x, 0, i) {
        FirstCell(x, i);
      }
    } else {
      AllCells(x, g - 1);
      forall i | 0 <= i < |x| ensures CellOk(x, g, i) {
        NextCell(x, g - 1, i);
      }
    }
  }

  /** The lock-step run in closed form. */
  lemma {:induction false} Cells(x: seq<int>, g: nat, i: nat)
    requires i < |x|
    ensures CellOk(x, g, i)
  {
    AllCells(x, g);
  }

  lemma {:induction false} CellWithoutSteps(x: seq<int>, g: nat, i: nat)
    requires i < |x| && Steps(i) < g
    ensures LockStep(x, g).range[i] == Sum(x, Low(i), i + 1)
  {
    StepsAtMost(i, g);
    Cells(x, g, i);
  }

  /** The result at every index, exactly. */
  lemma {:induction false} ResultIsPartialSum(x: seq<int>, i: nat)
    requires i < |x|
    ensures Result(x)[i] == Sum(x, Low(i), i + 1)
  {
    Pow2Exceeds(i);
    StepsAtMost(i, i);
    CellWithoutSteps(x, |x| + 1, i);
  }

  lemma {:induction false} BufferLowOdd(j: nat)
    requires Steps(j) % 2 == 1
    ensures BufferLow(j) == Low(j)
  {
  }

  lemma {:induction false} ReadLowOfPow2(k: nat, i: nat, j: nat)
    requires j + 1 == Pow2(k) && i == j + Pow2(k) && Low(j) == 0
    ensures ReadLow(i, k) == 0
  {
    if k % 2 == 1 {
      StepsUnique(j, k);
      BufferLowOdd(j);
    }
  }

  lemma {:induction false} LowOfPow2(k: nat, i: nat)
    requires i + 1 == Pow2(k)
    ensures Low(i) == 0
  {
    if k > 0 {
      var j := i - Pow2(k - 1);
      LowOfPow2(k - 1, j);
      ReadLowOfPow2(k - 1, i, j);
      LowStep(i, k - 1);
    }
  }

  lemma {:induction false} WholeWindow(x: seq<int>, g: nat, i: nat)
    requires i < |x| && Pow2(g) == i + 1 && CellOk(x, g, i)
    ensures (if g % 2 == 0 then LockStep(x, g).range[i] else LockStep(x, g).buffer[i]) == Window(x, i, Pow2(g))
  {
    LowOfPow2(g, i);
    StepsUnique(i, g);
    if g % 2 == 1 {
      BufferLowOdd(i);
    }
  }

  /** After step `g - 1`, every thread `i >= 2^g - 1` has exactly the sum of the last `2^g` elements
      in the array that this step has written. */
  lemma {:induction false} FullWindow(x: seq<int>, g: nat, i: nat)
    requires i < |x| && Pow2(g) <= i + 1
    ensures (if g % 2 == 0 then LockStep(x, g).range[i] else LockStep(x, g).buffer[i]) == Window(x, i, Pow2(g))
  {
    Cells(x, g, i);
    if i + 1 == Pow2(g) {
      WholeWindow(x, g, i);
    }
  }

  // ---------- where the result is the prefix sum ----------

  /** Read off the binary digits of `i`: the lowest one set is in an even place, and no two set
      digits with only zeros between them are both in odd places. */
  predicate Exact(i: nat) {
    i == 0 ||
    var s := Steps(i) - 1;
    var j := i - Pow2(s);
    Exact(j) && (s % 2 == 0 || Steps(j) % 2 == 1)
  }

  lemma {:induction false} ExactIsLowZero(i: nat)
    ensures Exact(i) <==> Low(i) == 0
  {
    if i > 0 {
      var s := Steps(i) - 1;
      var j := i - Pow2(s);
      ExactIsLowZero(j);
    }
  }

  lemma {:induction false} SumOfOnes(x: seq<int>, lo: nat, hi: nat)
    requires lo <= hi <= |x| && forall k :: 0 <= k < |x| ==> x[k] == 1
    ensures Sum(x, lo, hi) == hi - lo
  {
    if lo < hi {
      SumOfOnes(x, lo, hi - 1);
    }
  }

  predicate PrefixSumAt(x: seq<int>, i: nat)
    requires i < |x|
  {
    Result(x)[i] == Sum(x, 0, i + 1)
  }

  ghost predicate PrefixSumAlways(n: nat, i: nat)
    requires i < n
  {
    forall x: seq<int> {:trigger PrefixSumAt(x, i)} :: |x| == n ==> PrefixSumAt(x, i)
  }

  lemma {:induction false} ExactGivesPrefixSum(x: seq<int>, i: nat)
    requires i < |x| && Exact(i)
    ensures PrefixSumAt(x, i)
  {
    ExactIsLowZero(i);
    ResultIsPartialSum(x, i);
  }

  lemma {:induction false} OnesTell(x: seq<int>, i: nat)
    requires i < |x| && (forall k :: 0 <= k < |x| ==> x[k] == 1) && PrefixSumAt(x, i)
    ensures Exact(i)
  {
    ExactIsLowZero(i);
    ResultIsPartialSum(x, i);
    SumOfOnes(x, 0, i + 1);
    SumOfOnes(x, Low(i), i + 1);
  }

  lemma {:induction false} ExactSuffices(n: nat, i: nat)
    requires i < n && Exact(i)
    ensures PrefixSumAlways(n, i)
  {
    forall x: seq<int> | |x| == n ensures PrefixSumAt(x, i) {
      ExactGivesPrefixSum(x, i);
    }
  }

  lemma {:induction false} ExactNeeded(n: nat, i: nat, ones: seq<int>)
    requires i < n == |ones| && (forall k :: 0 <= k < n ==> ones[k] == 1) && PrefixSumAlways(n, i)
    ensures Exact(i)
  {
    OnesTell(ones, i);
  }

  /** Index `i` gets its prefix sum for every input exactly when its digits say so. */
  lemma {:induction false} PrefixSumIffExact(n: nat, i: nat)
    requires i < n
    ensures PrefixSumAlways(n, i) <==> Exact(i)
  {
    if Exact(i) {
      ExactSuffices(n, i);
    }
    if PrefixSumAlways(n, i) {
      ExactNeeded(n, i, seq(n, (k: nat) => 1));
    }
  }

  /** So the scan computes all prefix sums of every input of length `n` only for one or two
      elements: index 2 never sees element 0. */
  lemma {:induction false} PrefixSumsIffShort(n: nat)
    ensures (forall i: nat :: i < n ==> PrefixSumAlways(n, i)) <==> n <= 2
  {
    StepsUnique(1, 1);
    StepsUnique(2, 2);
    assert Exact(0) && Exact(1) && !Exact(2);
    if n <= 2 {
      forall i: nat | i < n ensures PrefixSumAlways(n, i) {
        PrefixSumIffExact(n, i);
      }
    } else {
      PrefixSumIffExact(n, 2);
    }
  }

  lemma {:induction false} IndexTwoMissesElementZero(x: seq<int>)
    requires |x| > 2
    ensures Result(x)[2] == x[1] + x[2]
  {
    StepsUnique(2, 2);
    ResultIsPartialSum(x, 2);
    assert Low(2) == 1;
    assert Sum(x, 1, 3) == Sum(x, 1, 1) + x[1] + x[2];
  }

  /** All indices `2^k - 1` are among the exact ones. */
  lemma {:induction false} PowersAreExact(k: nat, i: nat)
    requires i + 1 == Pow2(k)
    ensures Exact(i)
  {
    LowOfPow2(k, i);
    ExactIsLowZero(i);
  }

  // ---------- the lock-step run comes to rest ----------

  lemma {:induction false} AtRest(x: seq<int>, g: nat, h: nat, i: nat)
    requires i < |x| && g <= h && (g > 0 ==> i < Pow2(g - 1)) && (g == 0 ==> i == 0)
    ensures LockStep(x, g).range[i] == LockStep(x, h).range[i]
    ensures LockStep(x, g).buffer[i] == LockStep(x, h).buffer[i]
    decreases h - g
  {
    if g < h {
      if g > 0 {
        Pow2Monotone(g - 1, g);
      }
      AtRest(x, g + 1, h, i);
      StepCells(x, g, i);
    }
  }
}
