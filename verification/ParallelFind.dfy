/**
 * `parallel_find`: every thread searches its block until it finds a match or somebody else has; the
 * first to find one sets a promise, and after that a flag.
 *
 * The elements are integers. A second attempt to set the promise throws, and the handler swallows
 * the exception.
 */
module ParallelFind {
  import opened Options
  import PartialSum
  import Runs

  type Plan = PartialSum.Plan

  function First(plan: Plan, k: nat): nat {
    k * plan.block
  }

  function End(plan: Plan, k: nat): nat {
    if k + 1 < plan.threads then First(plan, k) + plan.block else plan.length
  }

  predicate PlanOk(plan: Plan) {
    plan.threads > 0 && plan.threads * plan.block <= plan.length
  }

  datatype Pc = Unborn | Testing(i: nat) | Comparing(i: nat) | Setting(i: nat) | Storing | Finished

  datatype State = State(
    plan: Plan, xs: seq<int>, target: int, result: Option<nat>, done: bool, pcs: seq<Pc>, born: nat, sets: nat)

  datatype Step = Spawn | Run(thread: nat)

  function Goto(s: State, k: nat, pc: Pc): State
    requires k < |s.pcs|
  {
    s.(pcs := s.pcs[k := pc])
  }

  function RunThread(s: State, k: nat): State
    requires k < |s.pcs|
  {
    match s.pcs[k]
    case Testing(i) => Goto(s, k, if i == End(s.plan, k) || s.done then Finished else Comparing(i))
    case Comparing(i) =>
      if i < |s.xs| then Goto(s, k, if s.xs[i] == s.target then Setting(i) else Testing(i + 1)) else s
    case Setting(i) =>
      if s.result.Some? then Goto(s, k, Finished)
      else Goto(s.(result := Some(i), sets := s.sets + 1), k, Storing)
    case Storing => Goto(s.(done := true), k, Finished)
    case _ => s
  }

  function Next(s: State, step: Step): State {
    match step
    case Spawn => if s.born < |s.pcs| then Goto(s, s.born, Testing(First(s.plan, s.born))).(born := s.born + 1) else s
    case Run(k) => if k < |s.pcs| then RunThread(s, k) else s
  }

  function Init(plan: Plan, xs: seq<int>, target: int): State {
    State(plan, xs, target, None, false, seq(plan.threads, _ => Unborn), 0, 0)
  }

  function RunAll(s: State, steps: seq<Step>): State {
    Runs.Run(Next, s, steps)
  }

  predicate AllFinished(s: State) {
    forall k :: 0 <= k < |s.pcs| ==> s.pcs[k].Finished?
  }

  /** What the function returns once the threads are joined: the end of the range if the flag is not set. */
  function Answer(s: State): nat {
    if s.done && s.result.Some? then s.result.value else |s.xs|
  }

  // ---------- the blocks ----------

  lemma {:induction false} Times(a: nat, b: nat, c: nat)
    requires b <= c
    ensures a * b <= a * c
  {
  }

  lemma {:induction false} BlockInRange(plan: Plan, k: nat)
    requires PlanOk(plan) && k < plan.threads
    ensures First(plan, k) <= End(plan, k) <= plan.length
  {
    Times(plan.block, k + 1, plan.threads);
    assert First(plan, k) + plan.block == (k + 1) * plan.block;
  }

  lemma {:induction false} BlockOf(plan: Plan, i: nat) returns (k: nat)
    requires PlanOk(plan) && i < plan.length
    ensures k < plan.threads && First(plan, k) <= i < End(plan, k)
  {
    if i >= First(plan, plan.threads - 1) {
      k := plan.threads - 1;
    } else {
      k := i / plan.block;
      assert k * plan.block <= i < k * plan.block + plan.block;
      if k >= plan.threads - 1 {
        Times(plan.block, plan.threads - 1, k);
      }
    }
  }

  lemma {:induction false} MadePlanOk(length: nat, cores: nat)
    requires length > 0 && cores > 0
    ensures PlanOk(PartialSum.MakePlan(length, cores)) && PartialSum.MakePlan(length, cores).length == length
  {
    var n := PartialSum.MakePlan(length, cores).threads;
    assert n * (length / n) <= length;
  }

  // ---------- what holds in every state ----------

  predicate NoMatch(xs: seq<int>, target: int, a: nat, b: nat) {
    forall i :: a <= i < b && i < |xs| ==> xs[i] != target
  }

  predicate ThreadOk(s: State, k: nat, pc: Pc) {
    var a, b := First(s.plan, k), End(s.plan, k);
    match pc
    case Unborn => true
    case Testing(i) => a <= i <= b && NoMatch(s.xs, s.target, a, i)
    case Comparing(i) => a <= i < b && NoMatch(s.xs, s.target, a, i)
    case Setting(i) => i < |s.xs| && s.xs[i] == s.target
    case Storing => s.result.Some?
    case Finished => s.result.Some? || NoMatch(s.xs, s.target, a, b)
  }

  predicate ResultOk(s: State) {
    && (s.result.Some? ==> s.result.value < |s.xs| && s.xs[s.result.value] == s.target)
    && (s.done ==> s.result.Some?)
    && s.sets == (if s.result.Some? then 1 else 0)
  }

  predicate Inv(s: State) {
    && PlanOk(s.plan) && s.plan.length == |s.xs| && |s.pcs| == s.plan.threads && s.born <= |s.pcs|
    && ResultOk(s) && Announced(s)
    && (forall k :: 0 <= k < |s.pcs| ==> ThreadOk(s, k, s.pcs[k]))
    && (forall k :: 0 <= k < |s.pcs| ==> (s.pcs[k].Unborn? <==> k >= s.born))
  }

  lemma {:induction false} OwnOk(s: State, k: nat)
    requires PlanOk(s.plan) && s.plan.length == |s.xs| && k < |s.pcs| == s.plan.threads && ThreadOk(s, k, s.pcs[k])
    requires s.done ==> s.result.Some?
    ensures ThreadOk(RunThread(s, k), k, RunThread(s, k).pcs[k])
  {
    BlockInRange(s.plan, k);
    hide First;
  }

  /** A step of thread `k` leaves what holds of the others. */
  lemma {:induction false} OtherOk(s: State, k: nat, l: nat)
    requires k < |s.pcs| && l < |s.pcs| && l != k && ThreadOk(s, l, s.pcs[l])
    ensures ThreadOk(RunThread(s, k), l, RunThread(s, k).pcs[l])
  {
    hide First, End, NoMatch;
  }

  /** Whoever has set the promise but not the flag is about to set the flag. */
  predicate Announced(s: State) {
    s.result.Some? && !s.done ==> exists k :: 0 <= k < |s.pcs| && s.pcs[k].Storing?
  }

  lemma {:induction false} RunKeepsAnnounced(s: State, k: nat)
    requires k < |s.pcs| && Announced(s)
    ensures Announced(RunThread(s, k))
  {
    var s' := RunThread(s, k);
    hide End;
    if s.result.Some? && !s.done && !s.pcs[k].Storing? {
      var l :| 0 <= l < |s.pcs| && s.pcs[l].Storing?;
      assert s'.pcs[l].Storing?;
    }
    if s.pcs[k].Setting? && s.result.None? {
      assert s'.pcs[k].Storing?;
    }
  }

  lemma {:induction false} RunKeepsResult(s: State, k: nat)
    requires k < |s.pcs| && ResultOk(s) && ThreadOk(s, k, s.pcs[k])
    ensures ResultOk(RunThread(s, k))
  {
    hide First, End, NoMatch;
  }

  lemma {:induction false} RunKeeps(s: State, k: nat)
    requires Inv(s) && k < |s.pcs|
    ensures Inv(RunThread(s, k))
  {
    var s' := RunThread(s, k);
    assert ThreadOk(s, k, s.pcs[k]);
    RunKeepsAnnounced(s, k);
    RunKeepsResult(s, k);
    OwnOk(s, k);
    forall l | 0 <= l < |s.pcs| && l != k ensures ThreadOk(s', l, s'.pcs[l]) {
      assert ThreadOk(s, l, s.pcs[l]);
      OtherOk(s, k, l);
    }
    OnlyOwn(s, k);
    hide RunThread, ThreadOk, Announced, ResultOk, PlanOk;
  }

  lemma {:induction false} OnlyOwn(s: State, k: nat)
    requires k < |s.pcs|
    ensures var s' := RunThread(s, k);
      && s'.plan == s.plan && s'.xs == s.xs && |s'.pcs| == |s.pcs| && s'.born == s.born
      && s'.pcs == s.pcs[k := s'.pcs[k]] && (s.pcs[k].Unborn? <==> s'.pcs[k].Unborn?)
  {
    hide First, End;
  }

  lemma {:induction false} SpawnKeeps(s: State)
    requires Inv(s)
    ensures Inv(Next(s, Spawn))
  {
    if s.born < |s.pcs| {
      var s' := Next(s, Spawn);
      BlockInRange(s.plan, s.born);
      forall l | 0 <= l < |s'.pcs| ensures ThreadOk(s', l, s'.pcs[l]) {
        assert ThreadOk(s, l, s.pcs[l]);
      }
      if s.result.Some? && !s.done {
        var l :| 0 <= l < |s.pcs| && s.pcs[l].Storing?;
        assert s'.pcs[l].Storing?;
      }
    }
  }

  lemma {:induction false} NextKeepsInv(s: State, step: Step)
    requires Inv(s)
    ensures Inv(Next(s, step))
  {
    match step
    case Spawn => SpawnKeeps(s);
    case Run(k) =>
      hide Inv;
      if k < |s.pcs| {
        RunKeeps(s, k);
      }
  }

  lemma {:induction false} RunKeepsInv(s: State, steps: seq<Step>)
    requires Inv(s)
    ensures Inv(RunAll(s, steps))
  {
    hide Inv, Next;
    forall t, step | Inv(t) ensures Inv(Next(t, step)) {
      NextKeepsInv(t, step);
    }
    Runs.RunKeeps(Next, Inv, s, steps);
  }

  // ---------- what the search finds ----------

  /** When all threads have finished, the answer is the end of the range exactly if no element matches,
      and otherwise the place of a match. If there is a match the flag is set, and the promise has been
      set exactly once. */
  lemma {:induction false} FinishedAnswer(s: State)
    requires Inv(s) && AllFinished(s)
    ensures Answer(s) == |s.xs| <==> s.target !in s.xs
    ensures Answer(s) < |s.xs| ==> s.xs[Answer(s)] == s.target
    ensures s.target in s.xs <==> s.done
    ensures s.sets == if s.target in s.xs then 1 else 0
  {
    if s.target in s.xs {
      var i :| 0 <= i < |s.xs| && s.xs[i] == s.target;
      var k := BlockOf(s.plan, i);
      assert ThreadOk(s, k, s.pcs[k]);
    }
  }

  /** What a schedule makes the function return, if it lets it return: on an empty range no thread is
      started. */
  function Returned(xs: seq<int>, target: int, cores: nat, steps: seq<Step>): Option<nat>
    requires cores > 0
  {
    if xs == [] then Some(0)
    else
      var s := RunAll(Init(PartialSum.MakePlan(|xs|, cores), xs, target), steps);
      if AllFinished(s) then Some(Answer(s)) else None
  }

  lemma {:induction false} EveryScheduleFinds(xs: seq<int>, target: int, cores: nat, steps: seq<Step>)
    requires cores > 0
    ensures match Returned(xs, target, cores, steps)
      case None => true
      case Some(i) => i <= |xs| && (i == |xs| <==> target !in xs) && (i < |xs| ==> xs[i] == target)
    ensures xs != [] && Returned(xs, target, cores, steps).Some? ==>
      var s := RunAll(Init(PartialSum.MakePlan(|xs|, cores), xs, target), steps);
      (target in xs <==> s.done) && s.sets == if target in xs then 1 else 0
  {
    if xs != [] {
      var plan := PartialSum.MakePlan(|xs|, cores);
      MadePlanOk(|xs|, cores);
      RunKeepsInv(Init(plan, xs, target), steps);
      InputStays(Init(plan, xs, target), steps);
      var s := RunAll(Init(plan, xs, target), steps);
      hide RunAll;
      if AllFinished(s) {
        FinishedAnswer(s);
      }
    }
  }

  lemma {:induction false} InputStays(s: State, steps: seq<Step>)
    ensures RunAll(s, steps).xs == s.xs && RunAll(s, steps).target == s.target && RunAll(s, steps).plan == s.plan
  {
    Runs.RunKeeps(Next, (t: State) => t.xs == s.xs && t.target == s.target && t.plan == s.plan, s, steps);
  }

  // ---------- termination ----------

  function Rest(plan: Plan, k: nat, pc: Pc): int {
    var size := End(plan, k) - First(plan, k);
    match pc
    case Unborn => 2 * size + 5
    case Testing(i) => 2 * (End(plan, k) - i) + 4
    case Comparing(i) => 2 * (End(plan, k) - i) + 3
    case Setting(_) => 2
    case Storing => 1
    case Finished => 0
  }

  /** No thread ever waits: until it has finished, each of its steps brings it closer to the end. */
  lemma {:induction false} EveryStepAdvances(s: State, k: nat)
    requires Inv(s) && k < |s.pcs| && !s.pcs[k].Unborn? && !s.pcs[k].Finished?
    ensures 0 <= Rest(s.plan, k, RunThread(s, k).pcs[k]) < Rest(s.plan, k, s.pcs[k])
  {
    assert ThreadOk(s, k, s.pcs[k]);
    BlockInRange(s.plan, k);
  }

  /** What is left for thread `k`. */
  function RestOf(s: State): nat -> int {
    (k: nat) => if k < |s.pcs| then Rest(s.plan, k, s.pcs[k]) else 0
  }

  /** What is left for all threads. */
  function Work(s: State): int {
    Runs.Total(|s.pcs|, RestOf(s))
  }

  lemma {:induction false} WorkNotNegative(s: State)
    requires Inv(s)
    ensures Work(s) >= 0
  {
    forall k: nat | k < |s.pcs| ensures RestOf(s)(k) >= 0 {
      assert ThreadOk(s, k, s.pcs[k]);
      BlockInRange(s.plan, k);
    }
    Runs.TotalNotNegative(|s.pcs|, RestOf(s));
  }

  lemma {:induction false} NextUsesWork(s: State, step: Step)
    requires Inv(s) && Next(s, step) != s
    ensures Work(Next(s, step)) < Work(s)
  {
    var k, s' := if step.Spawn? then s.born else step.thread, Next(s, step);
    if step.Spawn? {
      BlockInRange(s.plan, k);
    } else {
      OnlyOwn(s, k);
      EveryStepAdvances(s, k);
    }
    hide RunThread, Inv;
    Runs.TotalChange(|s.pcs|, RestOf(s), RestOf(s'), k);
  }

  lemma {:induction false} WorkAtStart(plan: Plan, xs: seq<int>, target: int, n: nat)
    requires PlanOk(plan) && n <= plan.threads
    ensures Runs.Total(n, RestOf(Init(plan, xs, target))) ==
      5 * n + 2 * if n == plan.threads then plan.length else First(plan, n)
  {
    if n > 0 {
      WorkAtStart(plan, xs, target, n - 1);
      assert First(plan, n) == First(plan, n - 1) + plan.block;
    }
  }

  /** Until all have finished some step changes the state. */
  lemma {:induction false} NeverStuck(s: State) returns (step: Step)
    requires Inv(s) && !AllFinished(s)
    ensures Next(s, step) != s
  {
    var k :| 0 <= k < |s.pcs| && !s.pcs[k].Finished?;
    if s.pcs[k].Unborn? {
      step := Spawn;
      assert Next(s, step).born != s.born;
    } else {
      step := Run(k);
      EveryStepAdvances(s, k);
    }
  }

  /** Every schedule ends: it changes the state at most twice for each element and five times for each
      thread. */
  lemma {:induction false} ChangesBounded(xs: seq<int>, target: int, cores: nat, steps: seq<Step>)
    requires xs != [] && cores > 0
    ensures var plan := PartialSum.MakePlan(|xs|, cores);
      Runs.Changes(Next, Init(plan, xs, target), steps) <= 2 * |xs| + 5 * plan.threads
  {
    var plan := PartialSum.MakePlan(|xs|, cores);
    MadePlanOk(|xs|, cores);
    WorkAtStart(plan, xs, target, plan.threads);
    assert Inv(Init(plan, xs, target));
    hide Inv, Next, Work;
    forall t, step | Inv(t) ensures Inv(Next(t, step)) && (Next(t, step) != t ==> Work(Next(t, step)) < Work(t)) {
      NextKeepsInv(t, step);
      if Next(t, step) != t {
        NextUsesWork(t, step);
      }
    }
    forall t | Inv(t) ensures Work(t) >= 0 {
      WorkNotNegative(t);
    }
    Runs.ChangesBounded(Next, Inv, Work, Init(plan, xs, target), steps);
  }

  /** What is left for a thread once the flag is set. */
  function RestOnceDone(pc: Pc): int {
    match pc
    case Unborn => 2
    case Testing(_) => 1
    case Comparing(_) => 2
    case Setting(_) => 1
    case Storing => 1
    case Finished => 0
  }

  function RestsOnceDone(s: State): nat -> int {
    (k: nat) => if k < |s.pcs| then RestOnceDone(s.pcs[k]) else 0
  }

  function WorkOnceDone(s: State): int {
    Runs.Total(|s.pcs|, RestsOnceDone(s))
  }

  predicate Found(s: State) {
    Inv(s) && s.done
  }

  lemma {:induction false} FoundNext(s: State, step: Step)
    requires Found(s)
    ensures Found(Next(s, step)) && (Next(s, step) != s ==> WorkOnceDone(Next(s, step)) < WorkOnceDone(s))
  {
    var k, s' := if step.Spawn? then s.born else step.thread, Next(s, step);
    NextKeepsInv(s, step);
    StepOnceFound(s, step);
    hide Inv, First, End, RestOnceDone;
    if s' != s {
      Runs.TotalChange(|s.pcs|, RestsOnceDone(s), RestsOnceDone(s'), k);
    }
  }

  lemma {:induction false} StepOnceFound(s: State, step: Step)
    requires Found(s)
    ensures var k, s' := if step.Spawn? then s.born else step.thread, Next(s, step);
      s' != s ==>
      && s'.done && k < |s.pcs| == |s'.pcs| && s'.pcs == s.pcs[k := s'.pcs[k]]
      && RestOnceDone(s'.pcs[k]) < RestOnceDone(s.pcs[k])
  {
    hide First, End, ThreadOk;
  }

  lemma {:induction false} WorkOnceDoneBounded(s: State, n: nat)
    requires n <= |s.pcs|
    ensures Runs.Total(n, RestsOnceDone(s)) <= 2 * n
  {
    if n > 0 {
      WorkOnceDoneBounded(s, n - 1);
    }
  }

  /** Nobody goes on searching for what has been found: once the flag is set the threads take no more than
      two further steps each, however much of the range is left. */
  lemma {:induction false} SearchEndsOnceFound(s: State, steps: seq<Step>)
    requires Inv(s) && s.done
    ensures Runs.Changes(Next, s, steps) <= 2 * |s.pcs|
  {
    hide Inv, Next;
    WorkOnceDoneBounded(s, |s.pcs|);
    forall t, step | Found(t)
      ensures Found(Next(t, step)) && (Next(t, step) != t ==> WorkOnceDone(Next(t, step)) < WorkOnceDone(t))
    {
      FoundNext(t, step);
    }
    forall t | Found(t) ensures WorkOnceDone(t) >= 0 {
      Runs.TotalNotNegative(|t.pcs|, RestsOnceDone(t));
    }
    Runs.ChangesBounded(Next, Found, WorkOnceDone, s, steps);
  }

  // ---------- the object ----------

  /** The steps done in place. */
  class Search {
    const plan: Plan
    const xs: seq<int>
    const target: int
    var result: Option<nat>
    var done: bool
    var pcs: seq<Pc>
    var born: nat
    ghost var sets: nat

    ghost function Current(): State
      reads this
    {
      State(plan, xs, target, result, done, pcs, born, sets)
    }

    ghost predicate Valid()
      reads this
    {
      Inv(Current())
    }

    constructor (plan: Plan, xs: seq<int>, target: int)
      requires PlanOk(plan) && plan.length == |xs|
      ensures Current() == Init(plan, xs, target) && Valid()
    {
      this.plan, this.xs, this.target := plan, xs, target;
      result, done, pcs, born, sets := None, false, seq(plan.threads, _ => Unborn), 0, 0;
    }

    method SpawnNext()
      requires Valid()
      modifies this`pcs, this`born
      ensures Current() == Next(old(Current()), Spawn) && Valid()
    {
      hide Inv;
      NextKeepsInv(Current(), Spawn);
      if born < |pcs| {
        pcs := pcs[born := Testing(First(plan, born))];
        born := born + 1;
      }
    }

    method Step(k: nat)
      requires Valid()
      modifies this`pcs, this`result, this`done, this`sets
      ensures Current() == Next(old(Current()), Run(k)) && Valid()
    {
      hide Inv;
      NextKeepsInv(Current(), Run(k));
      if k >= |pcs| {
        return;
      }
      match pcs[k] {
        case Testing(i) =>
          if i == End(plan, k) || done {
            pcs := pcs[k := Finished];
          } else {
            pcs := pcs[k := Comparing(i)];
          }
        case Comparing(i) =>
          if i < |xs| {
            pcs := pcs[k := if xs[i] == target then Setting(i) else Testing(i + 1)];
          }
        case Setting(i) =>
          if result.None? {
            result, sets := Some(i), sets + 1;
            pcs := pcs[k := Storing];
          } else {
            pcs := pcs[k := Finished];
          }
        case Storing =>
          done := true;
          pcs := pcs[k := Finished];
        case _ =>
      }
    }
  }
}
