/**
 * Partial sums by chunks: every chunk is summed by its own thread, which then waits for the sum up
 * to its chunk from a promise of the thread before it.
 *
 * A step of a thread is one element, one promise or one future. `fault` is set by an index outside
 * the range, a null promise or a promise set twice.
 */
module PartialSum {
  import opened Options
  import Runs
  import opened Sums

  // ---------- the partition ----------

  const MIN_PER_THREAD: nat := 25

  /** How the range is cut up: all chunks but the last have `block + 1` elements, since the iterator
      `block` places on is the last of its chunk and not one past it. */
  datatype Plan = Plan(length: nat, threads: nat, block: nat)

  function MakePlan(length: nat, cores: nat): Plan
    requires length > 0 && cores > 0
  {
    var most := (length + MIN_PER_THREAD - 1) / MIN_PER_THREAD;
    var threads := if cores < most then cores else most;
    Plan(length, threads, length / threads)
  }

  function First(plan: Plan, k: nat): nat {
    k * (plan.block + 1)
  }

  function Last(plan: Plan, k: nat): int {
    if k + 1 < plan.threads then First(plan, k) + plan.block else plan.length - 1
  }

  /** There are as many threads as cores if each then gets 25 elements or more, and otherwise no more than it
      takes for all but one to have 25; the block is what each gets if the rest is left over. */
  lemma {:induction false} PlanUsesCores(length: nat, cores: nat)
    requires length > 0 && cores > 0
    ensures var plan := MakePlan(length, cores);
      && plan.length == length && 0 < plan.threads <= cores
      && (plan.threads - 1) * MIN_PER_THREAD < length
      && (plan.threads < cores ==> length <= plan.threads * MIN_PER_THREAD)
      && plan.threads * plan.block <= length < plan.threads * (plan.block + 1)
  {
    var plan := MakePlan(length, cores);
    assert length == plan.threads * plan.block + length % plan.threads;
    assert plan.threads * (plan.block + 1) == plan.threads * plan.block + plan.threads;
  }

  /** The last chunk is not empty. */
  predicate Fits(plan: Plan) {
    plan.threads > 0 && First(plan, plan.threads - 1) < plan.length
  }

  lemma {:induction false} FitsIffFewThreads(length: nat, cores: nat)
    requires length > 0 && cores > 0
    ensures var plan := MakePlan(length, cores);
      plan.threads > 0 && (Fits(plan) <==> plan.threads <= plan.block + length % plan.threads)
  {
    var n, b := MakePlan(length, cores).threads, MakePlan(length, cores).block;
    assert length == n * b + length % n;
    assert (n - 1) * (b + 1) == n * b + n - b - 1;
  }

  lemma {:induction false} UpTo25CoresFit(length: nat, cores: nat)
    requires length > 0 && 0 < cores <= 25
    ensures Fits(MakePlan(length, cores))
  {
    FitsIffFewThreads(length, cores);
    FewThreads(length, cores);
    LargeQuotient(length, MakePlan(length, cores).threads);
  }

  /** There are more than 25 elements for each thread but one. */
  lemma {:induction false} FewThreads(length: nat, cores: nat)
    requires length > 0 && 0 < cores <= 25
    ensures var n := MakePlan(length, cores).threads; n > 0 && length > (n - 1) * n
  {
    var n := MakePlan(length, cores).threads;
    Times(n - 1, n, 25);
  }

  lemma {:induction false} LargeQuotient(length: nat, n: nat)
    requires n > 0 && length > (n - 1) * n
    ensures n <= length / n + length % n
  {
    var b := length / n;
    assert length == n * b + length % n;
    if b + 1 <= n - 1 {
      Times(n, b + 1, n - 1);
    }
  }

  lemma {:induction false} Times(a: nat, b: int, c: int)
    requires b <= c
    ensures a * b <= a * c
  {
  }

  /** With more cores the bound fails, first at 650 elements: the chunks of 26 take them all and
      leave the last thread none. */
  lemma {:induction false} MoreCoresDoNotFit(cores: nat)
    requires cores > 25
    ensures MakePlan(650, cores) == Plan(650, 26, 25) && First(MakePlan(650, cores), 25) == 650
    ensures !Fits(MakePlan(650, cores))
  {
  }

  lemma {:induction false} FirstsInOrder(plan: Plan, k: nat, l: nat)
    requires k <= l
    ensures First(plan, k) <= First(plan, l) && First(plan, k + 1) == First(plan, k) + plan.block + 1
  {
    Times(plan.block + 1, k, l);
  }

  lemma {:induction false} ChunksInOrder(plan: Plan, k: nat, l: nat)
    requires Fits(plan) && k < l < plan.threads
    ensures 0 <= First(plan, k) <= Last(plan, k) < First(plan, l) <= Last(plan, l) < plan.length
    ensures l == k + 1 ==> First(plan, l) == Last(plan, k) + 1
  {
    FirstsInOrder(plan, k + 1, l);
    FirstsInOrder(plan, k, l);
    FirstsInOrder(plan, l, plan.threads - 1);
    if l + 1 < plan.threads {
      FirstsInOrder(plan, l + 1, plan.threads - 1);
    }
    hide First;
  }

  lemma {:induction false} ChunkInRange(plan: Plan, k: nat)
    requires Fits(plan) && k < plan.threads
    ensures 0 <= First(plan, k) <= Last(plan, k) < plan.length
  {
    if k + 1 < plan.threads {
      ChunksInOrder(plan, k, k + 1);
    }
  }

  /** If the plan fits, every index is in exactly one chunk. */
  lemma {:induction false} ChunksPartition(plan: Plan, i: nat) returns (k: nat)
    requires Fits(plan) && i < plan.length
    ensures k < plan.threads && First(plan, k) <= i <= Last(plan, k)
    ensures forall l: nat :: l < plan.threads && First(plan, l) <= i <= Last(plan, l) ==> l == k
  {
    var w := plan.block + 1;
    if i >= First(plan, plan.threads - 1) {
      k := plan.threads - 1;
    } else {
      k := i / w;
      assert k * w <= i < k * w + w;
      if k >= plan.threads - 1 {
        Times(w, plan.threads - 1, k);
      }
    }
    forall l: nat | l < plan.threads && First(plan, l) <= i <= Last(plan, l) ensures l == k {
      if l < k {
        ChunksInOrder(plan, l, k);
      } else if k < l {
        ChunksInOrder(plan, k, l);
      }
    }
  }

  // ---------- the steps ----------

  datatype Pc =
    | Unborn
    | Summing(j: nat)
    | Asking
    | Adding(addend: int)
    | Publishing(addend: int)
    | Spreading(addend: int, j: nat)
    | Done

  /** The thread that cuts up the range starts the others in turn and is itself the last. */
  datatype State = State(plan: Plan, cells: seq<int>, promises: seq<Option<int>>, pcs: seq<Pc>, born: nat, fault: bool)

  datatype Step = Spawn | Run(thread: nat)

  function Goto(s: State, k: nat, pc: Pc): State
    requires k < |s.pcs|
  {
    s.(pcs := s.pcs[k := pc])
  }

  /** Adds `x` to a cell. */
  function AddTo(s: State, i: int, x: int): State {
    if 0 <= i < |s.cells| then s.(cells := s.cells[i := s.cells[i] + x]) else s.(fault := true)
  }

  function SetPromise(s: State, k: nat): State {
    if k < |s.promises| && s.promises[k].None? && 0 <= Last(s.plan, k) < |s.cells| then
      s.(promises := s.promises[k := Some(s.cells[Last(s.plan, k)])])
    else s.(fault := true)
  }

  function AfterSumming(s: State, k: nat): Pc {
    if k > 0 then Asking else Publishing(0)
  }

  /** The local scan stops only at the very end of its chunk, or does not start if the chunk is empty. */
  predicate SummedUp(s: State, k: nat, j: int) {
    First(s.plan, k) == Last(s.plan, k) + 1 || (First(s.plan, k) < |s.cells| && j == Last(s.plan, k) + 1)
  }

  /** The loops over a chunk compare with `!=`: one that starts beyond its end runs out of the range. */
  function RunChunk(s: State, k: nat): State
    requires k < |s.pcs|
  {
    match s.pcs[k]
    case Unborn => s
    case Summing(j) =>
      if SummedUp(s, k, j) then Goto(s, k, AfterSumming(s, k))
      else if !(0 < j <= |s.cells|) then s.(fault := true)
      else Goto(AddTo(s, j, s.cells[j - 1]), k, Summing(j + 1))
    case Asking =>
      if k == 0 || k - 1 >= |s.promises| || s.promises[k - 1].None? then s
      else Goto(s, k, Adding(s.promises[k - 1].value))
    case Adding(addend) =>
      var added := AddTo(s, Last(s.plan, k), addend);
      if k + 1 < s.plan.threads then Goto(added, k, Publishing(addend))
      else Goto(added, k, Spreading(addend, First(s.plan, k)))
    case Publishing(addend) =>
      Goto(SetPromise(s, k), k, if k > 0 then Spreading(addend, First(s.plan, k)) else Done)
    case Spreading(addend, j) =>
      if j == Last(s.plan, k) then Goto(s, k, Done)
      else Goto(AddTo(s, j, addend), k, Spreading(addend, j + 1))
    case Done => s
  }

  function Next(s: State, step: Step): State {
    match step
    case Spawn =>
      if s.born < |s.pcs| then Goto(s, s.born, Summing(First(s.plan, s.born) + 1)).(born := s.born + 1) else s
    case Run(k) => if k < |s.pcs| then RunChunk(s, k) else s
  }

  function Init(plan: Plan, cells: seq<int>): State
    requires plan.threads > 0
  {
    State(plan, cells, seq(plan.threads - 1, _ => None), seq(plan.threads, _ => Unborn), 0, false)
  }

  function RunAll(s: State, steps: seq<Step>): State {
    Runs.Run(Next, s, steps)
  }

  // ---------- what holds in every state ----------

  predicate Published(plan: Plan, k: nat, pc: Pc) {
    if k == 0 then pc.Done? else pc.Spreading? || pc.Done?
  }

  /** What cell `i` of chunk `k` should hold: the original, the sum from the chunk's first element,
      or the sum from the beginning. */
  function Expected(xs: seq<int>, plan: Plan, k: nat, pc: Pc, i: nat): int
    requires First(plan, k) <= i <= Last(plan, k) < |xs|
  {
    var local := Sum(xs, First(plan, k), i + 1);
    var whole := Sum(xs, 0, i + 1);
    match pc
    case Unborn => xs[i]
    case Summing(j) => if i < j then local else xs[i]
    case Asking => local
    case Adding(_) => local
    case Publishing(_) => if i == Last(plan, k) then whole else local
    case Spreading(_, j) => if i < j || i == Last(plan, k) then whole else local
    case Done => whole
  }

  predicate PcOk(xs: seq<int>, plan: Plan, k: nat, pc: Pc)
    requires First(plan, k) <= Last(plan, k) < |xs|
  {
    match pc
    case Summing(j) => First(plan, k) < j <= Last(plan, k) + 1
    case Asking => k > 0
    case Adding(addend) => k > 0 && addend == Sum(xs, 0, First(plan, k))
    case Publishing(addend) => k + 1 < plan.threads && addend == Sum(xs, 0, First(plan, k))
    case Spreading(addend, j) => k > 0 && addend == Sum(xs, 0, First(plan, k)) && First(plan, k) <= j <= Last(plan, k)
    case _ => true
  }

  predicate ChunkOk(xs: seq<int>, plan: Plan, cells: seq<int>, promises: seq<Option<int>>, k: nat, pc: Pc)
    requires First(plan, k) <= Last(plan, k) < |xs| == |cells|
  {
    && PcOk(xs, plan, k, pc)
    && (forall i :: First(plan, k) <= i <= Last(plan, k) ==> cells[i] == Expected(xs, plan, k, pc, i))
    && (k < |promises| ==>
          promises[k] == (if Published(plan, k, pc) then Some(Sum(xs, 0, Last(plan, k) + 1)) else None))
  }

  predicate Inv(xs: seq<int>, s: State) {
    && Fits(s.plan) && s.plan.threads >= 2 && s.plan.length == |xs| == |s.cells| && !s.fault
    && |s.pcs| == s.plan.threads && |s.promises| == s.plan.threads - 1 && s.born <= s.plan.threads
    && (forall k :: 0 <= k < s.plan.threads ==> 0 <= First(s.plan, k) <= Last(s.plan, k) < |xs|)
    && (forall k :: 0 <= k < s.plan.threads ==> (s.pcs[k].Unborn? <==> k >= s.born))
    && (forall k :: 0 <= k < s.plan.threads ==> ChunkOk(xs, s.plan, s.cells, s.promises, k, s.pcs[k]))
  }

  // ---------- one thread moves ----------

  /** The cells and the promise of a chunk. */
  predicate OnlyOwn(s: State, s': State, k: nat)
    requires k < |s.pcs|
  {
    && s'.plan == s.plan && |s'.cells| == |s.cells| && |s'.promises| == |s.promises| && s'.born == s.born
    && |s'.pcs| == |s.pcs| && (forall l :: 0 <= l < |s.pcs| && l != k ==> s'.pcs[l] == s.pcs[l])
    && (forall i :: 0 <= i < |s.cells| && !(First(s.plan, k) <= i <= Last(s.plan, k)) ==> s'.cells[i] == s.cells[i])
    && (forall l :: 0 <= l < |s.promises| && l != k ==> s'.promises[l] == s.promises[l])
  }

  /** A step of chunk `k` touches no cell and sets no promise of another chunk. */
  lemma {:induction false} OtherChunkOk(xs: seq<int>, s: State, s': State, k: nat, l: nat)
    requires Inv(xs, s) && k < |s.pcs| && l < |s.pcs| && l != k && OnlyOwn(s, s', k)
    ensures ChunkOk(xs, s'.plan, s'.cells, s'.promises, l, s'.pcs[l])
  {
    if l < k {
      ChunksInOrder(s.plan, l, k);
    } else {
      ChunksInOrder(s.plan, k, l);
    }
    hide Expected, PcOk;
  }

  predicate OwnStepOk(xs: seq<int>, s: State, s': State, k: nat)
    requires k < |s.pcs| && First(s.plan, k) <= Last(s.plan, k) < |xs|
  {
    && OnlyOwn(s, s', k) && !s'.fault && |s'.cells| == |xs| && |s'.pcs| == |s.pcs| && !s'.pcs[k].Unborn?
    && s'.plan == s.plan && ChunkOk(xs, s.plan, s'.cells, s'.promises, k, s'.pcs[k])
  }

  predicate Ready(xs: seq<int>, s: State, k: nat) {
    && k < |s.pcs| == s.plan.threads && |s.promises| == s.plan.threads - 1 && |xs| == |s.cells| && !s.fault
    && 0 <= First(s.plan, k) <= Last(s.plan, k) < |xs|
    && ChunkOk(xs, s.plan, s.cells, s.promises, k, s.pcs[k])
  }

  lemma {:induction false} SummingStep(xs: seq<int>, s: State, k: nat)
    requires Ready(xs, s, k) && s.pcs[k].Summing? && s.plan.threads >= 2
    ensures OwnStepOk(xs, s, RunChunk(s, k), k)
  {
    var j := s.pcs[k].j;
    if j <= Last(s.plan, k) {
      assert Sum(xs, First(s.plan, k), j + 1) == Sum(xs, First(s.plan, k), j) + xs[j];
    }
  }

  lemma {:induction false} AskingStep(xs: seq<int>, s: State, k: nat)
    requires Ready(xs, s, k) && s.pcs[k].Asking? && k > 0
    requires s.promises[k - 1].Some? ==> s.promises[k - 1].value == Sum(xs, 0, First(s.plan, k))
    ensures OwnStepOk(xs, s, RunChunk(s, k), k)
  {
  }

  lemma {:induction false} AddingStep(xs: seq<int>, s: State, k: nat)
    requires Ready(xs, s, k) && s.pcs[k].Adding?
    ensures OwnStepOk(xs, s, RunChunk(s, k), k)
  {
    SumSplit(xs, 0, First(s.plan, k), Last(s.plan, k) + 1);
  }

  lemma {:induction false} PublishingStep(xs: seq<int>, s: State, k: nat)
    requires Ready(xs, s, k) && s.pcs[k].Publishing?
    ensures OwnStepOk(xs, s, RunChunk(s, k), k)
  {
  }

  lemma {:induction false} SpreadingStep(xs: seq<int>, s: State, k: nat)
    requires Ready(xs, s, k) && s.pcs[k].Spreading?
    ensures OwnStepOk(xs, s, RunChunk(s, k), k)
  {
    SumSplit(xs, 0, First(s.plan, k), s.pcs[k].j + 1);
  }

  lemma {:induction false} OwnStep(xs: seq<int>, s: State, k: nat)
    requires Inv(xs, s) && k < |s.pcs| && !s.pcs[k].Unborn?
    ensures OwnStepOk(xs, s, RunChunk(s, k), k)
  {
    assert Ready(xs, s, k);
    match s.pcs[k]
    case Summing(_) => SummingStep(xs, s, k);
    case Asking =>
      ChunksInOrder(s.plan, k - 1, k);
      assert ChunkOk(xs, s.plan, s.cells, s.promises, k - 1, s.pcs[k - 1]);
      AskingStep(xs, s, k);
    case Adding(_) => AddingStep(xs, s, k);
    case Publishing(_) => PublishingStep(xs, s, k);
    case Spreading(_, _) => SpreadingStep(xs, s, k);
    case Done =>
  }

  lemma {:induction false} RunKeeps(xs: seq<int>, s: State, k: nat)
    requires Inv(xs, s) && k < |s.pcs|
    ensures Inv(xs, RunChunk(s, k))
  {
    if !s.pcs[k].Unborn? {
      OwnStep(xs, s, k);
      hide RunChunk, ChunkOk;
      var s' := RunChunk(s, k);
      forall l | 0 <= l < s'.plan.threads ensures ChunkOk(xs, s'.plan, s'.cells, s'.promises, l, s'.pcs[l]) {
        if l != k {
          OtherChunkOk(xs, s, s', k, l);
        }
      }
    }
  }

  lemma {:induction false} SpawnKeeps(xs: seq<int>, s: State)
    requires Inv(xs, s)
    ensures Inv(xs, Next(s, Spawn))
  {
    if s.born < |s.pcs| {
      var k, s' := s.born, Next(s, Spawn);
      var first := First(s.plan, k);
      assert Sum(xs, first, first + 1) == Sum(xs, first, first) + xs[first];
      assert ChunkOk(xs, s.plan, s.cells, s.promises, k, s.pcs[k]);
      assert ChunkOk(xs, s.plan, s.cells, s.promises, k, s'.pcs[k]);
      hide ChunkOk;
    }
  }

  lemma {:induction false} NextKeepsInv(xs: seq<int>, s: State, step: Step)
    requires Inv(xs, s)
    ensures Inv(xs, Next(s, step))
  {
    match step
    case Spawn => SpawnKeeps(xs, s);
    case Run(k) =>
      hide Inv, RunChunk;
      if k < |s.pcs| {
        RunKeeps(xs, s, k);
      }
  }

  lemma {:induction false} RunKeepsInv(xs: seq<int>, s: State, steps: seq<Step>)
    requires Inv(xs, s)
    ensures Inv(xs, RunAll(s, steps))
  {
    hide Inv, Next;
    forall t, step | Inv(xs, t) ensures Inv(xs, Next(t, step)) {
      NextKeepsInv(xs, t, step);
    }
    Runs.RunKeeps(Next, (t: State) => Inv(xs, t), s, steps);
  }

  lemma {:induction false} InitOk(plan: Plan, xs: seq<int>)
    requires Fits(plan) && plan.threads >= 2 && plan.length == |xs|
    ensures Inv(xs, Init(plan, xs))
  {
    forall k: nat | k < plan.threads ensures 0 <= First(plan, k) <= Last(plan, k) < |xs| {
      ChunkInRange(plan, k);
    }
  }

  // ---------- what the scan computes ----------

  /** When all threads are done the range holds the prefix sums, and each promise the sum up to the
      end of its chunk. */
  lemma {:induction false} DoneIsPrefixSums(xs: seq<int>, s: State)
    requires Inv(xs, s) && forall k :: 0 <= k < |s.pcs| ==> s.pcs[k].Done?
    ensures s.cells == PrefixSums(xs)
    ensures forall k :: 0 <= k < |s.promises| ==> s.promises[k] == Some(Sum(xs, 0, Last(s.plan, k) + 1))
  {
    forall i | 0 <= i < |xs| ensures s.cells[i] == Sum(xs, 0, i + 1) {
      var k := ChunksPartition(s.plan, i);
      assert ChunkOk(xs, s.plan, s.cells, s.promises, k, s.pcs[k]);
    }
    forall k | 0 <= k < |s.promises| ensures s.promises[k] == Some(Sum(xs, 0, Last(s.plan, k) + 1)) {
      assert ChunkOk(xs, s.plan, s.cells, s.promises, k, s.pcs[k]);
    }
  }

  /** With at least two threads and a plan that fits, every schedule that has come to its end has
      computed the prefix sums. */
  lemma {:induction false} EveryScheduleSums(xs: seq<int>, cores: nat, steps: seq<Step>)
    requires |xs| > 0 && cores > 0 && MakePlan(|xs|, cores).threads >= 2
    requires MakePlan(|xs|, cores).threads <= MakePlan(|xs|, cores).block + |xs| % MakePlan(|xs|, cores).threads
    ensures var s := RunAll(Init(MakePlan(|xs|, cores), xs), steps);
      !s.fault && ((forall k :: 0 <= k < |s.pcs| ==> s.pcs[k].Done?) ==> s.cells == PrefixSums(xs))
  {
    var plan := MakePlan(|xs|, cores);
    FitsIffFewThreads(|xs|, cores);
    InitOk(plan, xs);
    RunKeepsInv(xs, Init(plan, xs), steps);
    var s := RunAll(Init(plan, xs), steps);
    if forall k :: 0 <= k < |s.pcs| ==> s.pcs[k].Done? {
      DoneIsPrefixSums(xs, s);
    }
  }

  /** A promise, once set, stays. */
  lemma {:induction false} PromisesSetOnce(xs: seq<int>, s: State, step: Step, k: nat)
    requires Inv(xs, s) && k < |s.promises| && s.promises[k].Some?
    ensures |Next(s, step).promises| == |s.promises| && Next(s, step).promises[k] == s.promises[k]
  {
  }

  lemma {:induction false} FirstUndone(pcs: seq<Pc>) returns (k: nat)
    requires exists l :: 0 <= l < |pcs| && !pcs[l].Done?
    ensures k < |pcs| && !pcs[k].Done? && forall l :: 0 <= l < k ==> pcs[l].Done?
  {
    var last :| 0 <= last < |pcs| && !pcs[last].Done?;
    k := 0;
    while pcs[k].Done?
      invariant k <= last && forall l :: 0 <= l < k ==> pcs[l].Done?
      decreases last - k
    {
      k := k + 1;
    }
  }

  /** Until all threads are done some step changes the state: the first thread that is not done does
      not wait, because its predecessor has set its promise. */
  lemma {:induction false} NeverStuck(xs: seq<int>, s: State) returns (step: Step)
    requires Inv(xs, s) && exists k :: 0 <= k < |s.pcs| && !s.pcs[k].Done?
    ensures Next(s, step) != s
  {
    hide Expected, First, Last;
    var k := FirstUndone(s.pcs);
    assert ChunkOk(xs, s.plan, s.cells, s.promises, k, s.pcs[k]);
    if s.pcs[k].Unborn? {
      step := Spawn;
      assert Next(s, step).born != s.born;
    } else {
      step := Run(k);
      if k > 0 {
        assert ChunkOk(xs, s.plan, s.cells, s.promises, k - 1, s.pcs[k - 1]);
      }
      OwnStep(xs, s, k);
      assert Next(s, step).pcs[k] != s.pcs[k];
    }
  }

  // ---------- termination ----------

  function Rest(plan: Plan, k: nat, pc: Pc): int {
    var size := Last(plan, k) - First(plan, k) + 1;
    match pc
    case Unborn => 2 * size + 6
    case Summing(j) => Last(plan, k) + 1 - j + size + 5
    case Asking => size + 4
    case Adding(_) => size + 3
    case Publishing(_) => size + 2
    case Spreading(_, j) => Last(plan, k) - j + 1
    case Done => 0
  }

  /** What is left for thread `k`. */
  function RestOf(s: State): nat -> int {
    (k: nat) => if k < |s.pcs| then Rest(s.plan, k, s.pcs[k]) else 0
  }

  /** What is left for all threads. */
  function Work(s: State): int {
    Runs.Total(|s.pcs|, RestOf(s))
  }

  lemma {:induction false} RestOk(xs: seq<int>, s: State, k: nat)
    requires Inv(xs, s) && k < |s.pcs|
    ensures Rest(s.plan, k, s.pcs[k]) >= 0
  {
    ChunkInRange(s.plan, k);
    assert ChunkOk(xs, s.plan, s.cells, s.promises, k, s.pcs[k]);
  }

  lemma {:induction false} WorkNotNegative(xs: seq<int>, s: State)
    requires Inv(xs, s)
    ensures Work(s) >= 0
  {
    forall k: nat | k < |s.pcs| ensures RestOf(s)(k) >= 0 {
      RestOk(xs, s, k);
    }
    Runs.TotalNotNegative(|s.pcs|, RestOf(s));
  }

  lemma {:induction false} StepUsesRest(xs: seq<int>, s: State, k: nat)
    requires Inv(xs, s) && k < |s.pcs| && RunChunk(s, k) != s
    ensures var s' := RunChunk(s, k);
      |s'.pcs| == |s.pcs| && s'.pcs == s.pcs[k := s'.pcs[k]] && Rest(s.plan, k, s'.pcs[k]) < Rest(s.plan, k, s.pcs[k])
  {
    ChunkInRange(s.plan, k);
    assert ChunkOk(xs, s.plan, s.cells, s.promises, k, s.pcs[k]);
    hide Expected, ChunkOk;
    if s.pcs[k].Unborn? {
      assert false;
    }
  }

  function Mover(s: State, step: Step): nat {
    if step.Spawn? then s.born else step.thread
  }

  lemma {:induction false} NextUsesRest(xs: seq<int>, s: State, step: Step)
    requires Inv(xs, s) && Next(s, step) != s
    ensures var k, s' := Mover(s, step), Next(s, step);
      && k < |s.pcs| == |s'.pcs| && s'.plan == s.plan && s'.pcs == s.pcs[k := s'.pcs[k]]
      && Rest(s.plan, k, s'.pcs[k]) < Rest(s.plan, k, s.pcs[k])
  {
    if step.Spawn? {
      ChunkInRange(s.plan, s.born);
    } else {
      NextKeepsInv(xs, s, step);
      StepUsesRest(xs, s, step.thread);
    }
    hide ChunkOk, RunChunk, First, Last;
  }

  /** Every step that changes the state uses up work. */
  lemma {:induction false} NextUsesWork(xs: seq<int>, s: State, step: Step)
    requires Inv(xs, s) && Next(s, step) != s
    ensures Work(Next(s, step)) < Work(s)
  {
    NextUsesRest(xs, s, step);
    hide Inv, Next, Rest, Mover;
    Runs.TotalChange(|s.pcs|, RestOf(s), RestOf(Next(s, step)), Mover(s, step));
  }

  lemma {:induction false} WorkAtStart(plan: Plan, xs: seq<int>, n: nat)
    requires Fits(plan) && n <= plan.threads
    ensures Runs.Total(n, RestOf(Init(plan, xs))) ==
      6 * n + 2 * if n == plan.threads then plan.length else First(plan, n)
  {
    if n > 0 {
      WorkAtStart(plan, xs, n - 1);
      FirstsInOrder(plan, n - 1, n - 1);
    }
  }

  /** So every run ends: it changes the state at most twice for each element and six times for each thread. */
  lemma {:induction false} ChangesBounded(plan: Plan, xs: seq<int>, steps: seq<Step>)
    requires Fits(plan) && plan.threads >= 2 && plan.length == |xs|
    ensures Runs.Changes(Next, Init(plan, xs), steps) <= 2 * |xs| + 6 * plan.threads
  {
    InitOk(plan, xs);
    WorkAtStart(plan, xs, plan.threads);
    hide Inv, Next;
    forall t, step | Inv(xs, t)
      ensures Inv(xs, Next(t, step)) && (Next(t, step) != t ==> Work(Next(t, step)) < Work(t))
    {
      NextKeepsInv(xs, t, step);
      if Next(t, step) != t {
        NextUsesWork(xs, t, step);
      }
    }
    forall t | Inv(xs, t) ensures Work(t) >= 0 {
      WorkNotNegative(xs, t);
    }
    Runs.ChangesBounded(Next, (t: State) => Inv(xs, t), Work, Init(plan, xs), steps);
  }

  predicate AllDone(s: State) {
    forall k :: 0 <= k < |s.pcs| ==> s.pcs[k].Done?
  }

  lemma {:induction false} RunToEnd(xs: seq<int>, s: State) returns (steps: seq<Step>)
    requires Inv(xs, s)
    ensures AllDone(RunAll(s, steps))
    decreases Work(s)
  {
    steps := [];
    if !AllDone(s) {
      var step := NeverStuck(xs, s);
      NextUsesWork(xs, s, step);
      WorkNotNegative(xs, s);
      NextKeepsInv(xs, s, step);
      hide Inv, Next, Work;
      var rest := RunToEnd(xs, Next(s, step));
      steps := [step] + rest;
      assert steps[1..] == rest;
    }
  }

  // ---------- when it fails ----------

  /** With one thread there is no promise to set. */
  predicate OneThread(s: State) {
    && s.plan.threads == 1 && |s.pcs| == 1 && |s.promises| == 0
    && (s.pcs[0].Done? ==> s.fault) && !s.pcs[0].Asking? && !s.pcs[0].Adding? && !s.pcs[0].Spreading?
  }

  lemma {:induction false} OneThreadFaults(s: State, step: Step)
    requires OneThread(s)
    ensures OneThread(Next(s, step))
  {
  }

  /** The last chunk starts beyond its end: its thread cannot get through the loop that adds to it. */
  predicate LastIsEmpty(s: State) {
    && |s.pcs| == s.plan.threads >= 2 && |s.cells| == s.plan.length <= First(s.plan, s.plan.threads - 1)
    && (!s.fault ==>
          match s.pcs[s.plan.threads - 1]
          case Publishing(_) => false
          case Spreading(_, j) => j >= s.plan.length
          case Done => false
          case _ => true)
  }

  lemma {:induction false} LastIsEmptyFaults(s: State, step: Step)
    requires LastIsEmpty(s)
    ensures LastIsEmpty(Next(s, step))
  {
    if step.Run? && step.thread < |s.pcs| {
      if step.thread == s.plan.threads - 1 {
        hide First, SummedUp;
      } else {
        OtherChunkLeavesLast(s, step.thread);
        hide RunChunk, First;
      }
    }
  }

  lemma {:induction false} OtherChunkLeavesLast(s: State, k: nat)
    requires k + 1 < |s.pcs|
    ensures var s' := RunChunk(s, k);
      && s'.plan == s.plan && |s'.pcs| == |s.pcs| && s'.pcs[|s.pcs| - 1] == s.pcs[|s.pcs| - 1]
      && |s'.cells| == |s.cells| && (s.fault ==> s'.fault)
  {
    hide First, SummedUp;
  }

  /** The run has finished without a fault and the range holds the prefix sums. */
  predicate EndsWell(xs: seq<int>, s: State) {
    AllDone(s) && !s.fault && s.cells == PrefixSums(xs)
  }

  lemma {:induction false} ConditionsStay(s: State, steps: seq<Step>)
    ensures OneThread(s) ==> OneThread(RunAll(s, steps))
    ensures LastIsEmpty(s) ==> LastIsEmpty(RunAll(s, steps))
  {
    hide OneThread, LastIsEmpty, Next;
    forall t, step | OneThread(t) ensures OneThread(Next(t, step)) {
      OneThreadFaults(t, step);
    }
    forall t, step | LastIsEmpty(t) ensures LastIsEmpty(Next(t, step)) {
      LastIsEmptyFaults(t, step);
    }
    if OneThread(s) {
      Runs.RunKeeps(Next, OneThread, s, steps);
    }
    if LastIsEmpty(s) {
      Runs.RunKeeps(Next, LastIsEmpty, s, steps);
    }
  }

  /** Whatever the range holds. */
  lemma {:induction false} BadPlanFails(plan: Plan, xs: seq<int>, steps: seq<Step>)
    requires plan.threads > 0 && plan.length == |xs| && (plan.threads == 1 || !Fits(plan))
    ensures AllDone(RunAll(Init(plan, xs), steps)) ==> RunAll(Init(plan, xs), steps).fault
  {
    hide First;
    assert OneThread(Init(plan, xs)) || LastIsEmpty(Init(plan, xs));
    ConditionsStay(Init(plan, xs), steps);
  }

  /** Exactly when the scan is right: there are at least two threads, and no more than the block size
      and the remainder together. Then every schedule that finishes sums the range and one does finish,
      and otherwise no schedule comes to its end without a fault, whatever the range holds. */
  lemma {:induction false} SumsIffPlanFits(xs: seq<int>, cores: nat)
    requires |xs| > 0 && cores > 0
    ensures var plan := MakePlan(|xs|, cores);
      plan.threads > 0 &&
      ((exists steps :: EndsWell(xs, RunAll(Init(plan, xs), steps))) <==>
        (plan.threads >= 2 && plan.threads <= plan.block + |xs| % plan.threads))
  {
    var plan := MakePlan(|xs|, cores);
    FitsIffFewThreads(|xs|, cores);
    if plan.threads >= 2 && Fits(plan) {
      InitOk(plan, xs);
      var steps := RunToEnd(xs, Init(plan, xs));
      EveryScheduleSums(xs, cores, steps);
      assert EndsWell(xs, RunAll(Init(plan, xs), steps));
    } else {
      forall steps ensures !EndsWell(xs, RunAll(Init(plan, xs), steps)) {
        BadPlanFails(plan, xs, steps);
      }
    }
  }

  // ---------- the object ----------

  /** The steps done in place, on the range itself. */
  class Chunks {
    const plan: Plan
    const cells: array<int>
    const promises: array<Option<int>>
    const pcs: array<Pc>
    var born: nat
    var fault: bool

    ghost function Current(): State
      reads this, cells, promises, pcs
    {
      State(plan, cells[..], promises[..], pcs[..], born, fault)
    }

    ghost predicate Valid()
      reads this, cells, promises, pcs
    {
      pcs.Length == plan.threads
    }

    constructor (plan: Plan, range: array<int>)
      requires plan.threads > 0
      ensures Current() == Init(plan, range[..]) && Valid() && cells == range && fresh(pcs) && fresh(promises)
    {
      this.plan, cells, born, fault := plan, range, 0, false;
      promises := new Option<int>[plan.threads - 1](_ => None);
      pcs := new Pc[plan.threads](_ => Unborn);
      new;
      assert promises[..] == seq(plan.threads - 1, _ => None);
      assert pcs[..] == seq(plan.threads, _ => Unborn);
    }

    method Add(i: int, x: int)
      modifies this`fault, cells
      ensures AddTo(old(Current()), i, x) == Current()
    {
      if 0 <= i < cells.Length {
        cells[i] := cells[i] + x;
      } else {
        fault := true;
      }
    }

    method SetValue(k: nat)
      modifies this`fault, promises
      ensures SetPromise(old(Current()), k) == Current()
    {
      if k < promises.Length && promises[k].None? && 0 <= Last(plan, k) < cells.Length {
        promises[k] := Some(cells[Last(plan, k)]);
      } else {
        fault := true;
      }
    }

    method Move(k: nat, pc: Pc)
      requires k < pcs.Length
      modifies pcs
      ensures Goto(old(Current()), k, pc) == Current()
    {
      pcs[k] := pc;
    }

    method SpawnNext()
      requires Valid()
      modifies this`born, pcs
      ensures Current() == Next(old(Current()), Spawn)
      ensures forall xs :: Inv(xs, old(Current())) ==> Inv(xs, Current())
    {
      hide Inv;
      KeepsInvs(Current(), Spawn);
      if born < pcs.Length {
        Move(born, Summing(First(plan, born) + 1));
        born := born + 1;
      }
    }

    /** One element of the local scan. */
    method SumOne(k: nat, j: nat)
      requires k < pcs.Length && pcs[k] == Summing(j)
      modifies this`fault, cells, pcs
      ensures Current() == RunChunk(old(Current()), k)
    {
      hide First, Last, Goto, AddTo;
      if First(plan, k) == Last(plan, k) + 1 || (First(plan, k) < cells.Length && j == Last(plan, k) + 1) {
        Move(k, if k > 0 then Asking else Publishing(0));
      } else if 0 < j <= cells.Length {
        Add(j, cells[j - 1]);
        Move(k, Summing(j + 1));
      } else {
        fault := true;
      }
    }

    /** One element of the loop that adds the sum so far. */
    method SpreadOne(k: nat, addend: int, j: nat)
      requires k < pcs.Length && pcs[k] == Spreading(addend, j)
      modifies this`fault, cells, pcs
      ensures Current() == RunChunk(old(Current()), k)
    {
      hide First, Last, Goto, AddTo;
      if j == Last(plan, k) {
        Move(k, Done);
      } else {
        Add(j, addend);
        Move(k, Spreading(addend, j + 1));
      }
    }

    method Step(k: nat)
      requires Valid()
      modifies this`fault, cells, promises, pcs
      ensures Current() == Next(old(Current()), Run(k))
      ensures forall xs :: Inv(xs, old(Current())) ==> Inv(xs, Current())
    {
      hide Inv, First, Last, Goto, AddTo, SetPromise;
      KeepsInvs(Current(), Run(k));
      if k >= pcs.Length {
        return;
      }
      match pcs[k] {
        case Unborn =>
        case Summing(j) => SumOne(k, j);
        case Asking =>
          if k > 0 && k - 1 < promises.Length && promises[k - 1].Some? {
            Move(k, Adding(promises[k - 1].value));
          }
        case Adding(addend) =>
          Add(Last(plan, k), addend);
          Move(k, if k + 1 < plan.threads then Publishing(addend) else Spreading(addend, First(plan, k)));
        case Publishing(addend) =>
          SetValue(k);
          Move(k, if k > 0 then Spreading(addend, First(plan, k)) else Done);
        case Spreading(addend, j) => SpreadOne(k, addend, j);
        case Done =>
      }
    }
  }

  lemma {:induction false} KeepsInvs(s: State, step: Step)
    ensures forall xs :: Inv(xs, s) ==> Inv(xs, Next(s, step))
  {
    hide Inv, Next;
    forall xs | Inv(xs, s) ensures Inv(xs, Next(s, step)) {
      NextKeepsInv(xs, s, step);
    }
  }
}
