/**
 * Waiting for a value in the queue with two mutexes: the test is made under the head's mutex, and a push
 * notifies after it has let go of the tail's mutex, without ever locking the head's.
 *
 * The queue is only the number of its values. Reading the tail and linking a node are one step each, and
 * nobody wakes up without being notified.
 */
module Wakeups {
  import opened Options
  import Runs

  datatype Pc =
    | Idle
    | Locking     // wait_and_pop: about to lock the head's mutex, at first or after having been woken
    | Testing
    | Dozing      // has found the queue empty, still holds the mutex
    | Asleep
    | TryLocking  // try_pop
    | TryTesting
    | Taking      // holds the mutex, and the queue is not empty
    | Linking     // push
    | Notifying

  /** `missed` is history: a notification has found nobody asleep, but somebody about to be. */
  datatype State = State(values: nat, lock: Option<nat>, threads: seq<Pc>, missed: bool)

  datatype Step = CallWait(thread: nat) | CallTry(thread: nat) | CallPush(thread: nat) | Run(thread: nat, woken: nat)

  function Goto(s: State, t: nat, pc: Pc): State
    requires t < |s.threads|
  {
    s.(threads := s.threads[t := pc])
  }

  predicate Holds(pc: Pc) {
    pc.Testing? || pc.Dozing? || pc.TryTesting? || pc.Taking?
  }

  /** Wakes one of those asleep, if there is any. */
  function Notify(s: State, t: nat, woken: nat): State
    requires t < |s.threads|
  {
    if woken < |s.threads| && s.threads[woken].Asleep? then Goto(Goto(s, woken, Locking), t, Idle)
    else if Asleep in s.threads then s
    else Goto(s, t, Idle).(missed := s.missed || Dozing in s.threads)
  }

  function RunThread(s: State, t: nat, woken: nat): State
    requires t < |s.threads|
  {
    match s.threads[t]
    case Locking => if s.lock.None? then Goto(s, t, Testing).(lock := Some(t)) else s
    case Testing => Goto(s, t, if s.values == 0 then Dozing else Taking)
    case Dozing => Goto(s, t, Asleep).(lock := None)
    case TryLocking => if s.lock.None? then Goto(s, t, TryTesting).(lock := Some(t)) else s
    case TryTesting => if s.values == 0 then Goto(s, t, Idle).(lock := None) else Goto(s, t, Taking)
    case Taking => Goto(s, t, Idle).(lock := None, values := if s.values == 0 then 0 else s.values - 1)
    case Linking => Goto(s, t, Notifying).(values := s.values + 1)
    case Notifying => Notify(s, t, woken)
    case _ => s
  }

  function Next(s: State, step: Step): State {
    var t := step.thread;
    if t >= |s.threads| then s
    else
      match step
      case CallWait(_) => if s.threads[t].Idle? then Goto(s, t, Locking) else s
      case CallTry(_) => if s.threads[t].Idle? then Goto(s, t, TryLocking) else s
      case CallPush(_) => if s.threads[t].Idle? then Goto(s, t, Linking) else s
      case Run(_, woken) => RunThread(s, t, woken)
  }

  function Init(n: nat): State {
    State(0, None, seq(n, _ => Idle), false)
  }

  function RunAll(s: State, steps: seq<Step>): State {
    Runs.Run(Next, s, steps)
  }

  // ---------- what holds in every state ----------

  /** On its way to take a value, or to notify somebody of one. */
  predicate Awake(pc: Pc) {
    pc.Locking? || pc.Testing? || pc.TryLocking? || pc.TryTesting? || pc.Taking? || pc.Notifying?
  }

  function Count(threads: seq<Pc>): nat {
    if threads == [] then 0
    else Count(threads[..|threads| - 1]) + if Awake(threads[|threads| - 1]) then 1 else 0
  }

  predicate Waits(threads: seq<Pc>) {
    Asleep in threads || Dozing in threads
  }

  predicate Inv(s: State) {
    && (forall t :: 0 <= t < |s.threads| ==> (Holds(s.threads[t]) <==> s.lock == Some(t)))
    && (Taking in s.threads ==> s.values > 0)
    && (Waits(s.threads) && !s.missed ==> s.values <= Count(s.threads))
    && (s.missed ==> |s.threads| > 1)
  }

  lemma {:induction false} CountChanges(threads: seq<Pc>, t: nat, pc: Pc)
    requires t < |threads|
    ensures Count(threads[t := pc]) + (if Awake(threads[t]) then 1 else 0) ==
      Count(threads) + if Awake(pc) then 1 else 0
    decreases |threads|
  {
    var n := |threads| - 1;
    if t < n {
      CountChanges(threads[..n], t, pc);
      assert threads[t := pc][..n] == threads[..n][t := pc];
    } else {
      assert threads[t := pc][..n] == threads[..n];
    }
  }

  lemma {:induction false} Members(threads: seq<Pc>, t: nat, pc: Pc)
    requires t < |threads|
    ensures forall x :: x in threads[t := pc] ==> x == pc || x in threads
    ensures forall x :: x in threads && x != threads[t] ==> x in threads[t := pc]
    ensures pc in threads[t := pc]
  {
    var after := threads[t := pc];
    assert after[t] == pc;
    forall x | x in threads && x != threads[t] ensures x in after {
      var i :| 0 <= i < |threads| && threads[i] == x;
      assert after[i] == x;
    }
  }

  lemma {:induction false} InitInv(n: nat)
    ensures Inv(Init(n))
  {
  }

  lemma {:induction false} TakesAlone(s: State, t: nat)
    requires Inv(s) && t < |s.threads| && s.threads[t].Taking?
    ensures Taking !in s.threads[t := Idle]
  {
  }

  lemma {:induction false} NotifyKeepsInv(s: State, t: nat, woken: nat)
    requires Inv(s) && t < |s.threads| && s.threads[t].Notifying?
    ensures Inv(Notify(s, t, woken))
  {
    hide Count;
    if woken < |s.threads| && s.threads[woken].Asleep? {
      var between := s.threads[woken := Locking];
      CountChanges(s.threads, woken, Locking);
      CountChanges(between, t, Idle);
      Members(s.threads, woken, Locking);
      Members(between, t, Idle);
    } else if Asleep !in s.threads {
      CountChanges(s.threads, t, Idle);
      Members(s.threads, t, Idle);
      if Dozing in s.threads {
        var u :| 0 <= u < |s.threads| && s.threads[u] == Dozing;
        assert u != t;
      }
    }
  }

  lemma {:induction false} RunKeepsInv(s: State, t: nat, woken: nat)
    requires Inv(s) && t < |s.threads|
    ensures Inv(RunThread(s, t, woken))
  {
    hide Count, Notify;
    var s' := RunThread(s, t, woken);
    if s.threads[t].Notifying? {
      NotifyKeepsInv(s, t, woken);
    } else if s' != s {
      var pc := s'.threads[t];
      assert s'.threads == s.threads[t := pc];
      CountChanges(s.threads, t, pc);
      Members(s.threads, t, pc);
      if s.threads[t].Taking? {
        TakesAlone(s, t);
      }
    }
  }

  lemma {:induction false} NextKeepsInv(s: State, step: Step)
    requires Inv(s)
    ensures Inv(Next(s, step))
  {
    var t, s' := step.thread, Next(s, step);
    if t < |s.threads| {
      if step.Run? {
        RunKeepsInv(s, t, step.woken);
      } else if s' != s {
        hide Count;
        CountChanges(s.threads, t, s'.threads[t]);
        Members(s.threads, t, s'.threads[t]);
      }
    }
  }

  lemma {:induction false} RunAllKeepsInv(n: nat, steps: seq<Step>)
    ensures Inv(RunAll(Init(n), steps)) && |RunAll(Init(n), steps).threads| == n
  {
    hide Inv, Next;
    InitInv(n);
    forall s, step | Inv(s) ensures Inv(Next(s, step)) && |Next(s, step).threads| == |s.threads| {
      NextKeepsInv(s, step);
      SameThreads(s, step);
    }
    Runs.RunKeeps(Next, (s: State) => Inv(s) && |s.threads| == n, Init(n), steps);
  }

  lemma {:induction false} SameThreads(s: State, step: Step)
    ensures |Next(s, step).threads| == |s.threads|
  {
  }

  // ---------- lost wake-ups ----------

  /** Somebody sleeps although there is a value, and nobody is about to do anything. */
  predicate Stuck(s: State) {
    && s.values > 0 && Asleep in s.threads
    && forall t :: 0 <= t < |s.threads| ==> s.threads[t].Asleep? || s.threads[t].Idle?
  }

  lemma {:induction false} NobodyAwake(threads: seq<Pc>)
    requires forall t :: 0 <= t < |threads| ==> !Awake(threads[t])
    ensures Count(threads) == 0
    decreases |threads|
  {
    if threads != [] {
      NobodyAwake(threads[..|threads| - 1]);
    }
  }

  /** As long as no notification has been missed nobody sleeps beside a value, unless there is somebody awake
      for each value. */
  lemma {:induction false} SomebodyForEachValue(n: nat, steps: seq<Step>)
    requires !RunAll(Init(n), steps).missed && Asleep in RunAll(Init(n), steps).threads
    ensures var s := RunAll(Init(n), steps); s.values <= Count(s.threads) && !Stuck(s)
  {
    hide RunAll, Count;
    var s := RunAll(Init(n), steps);
    RunAllKeepsInv(n, steps);
    if Stuck(s) {
      NobodyAwake(s.threads);
    }
  }

  /** When it is stuck, nothing but a new call ever changes that. */
  lemma {:induction false} StuckForEver(s: State, steps: seq<Step>)
    requires Stuck(s) && forall i :: 0 <= i < |steps| ==> steps[i].Run?
    ensures RunAll(s, steps) == s
    decreases |steps|
  {
    if steps != [] {
      assert steps[0].Run?;
      assert Next(s, steps[0]) == s;
      StuckForEver(s, steps[1..]);
    }
  }

  /** A push that notifies between another thread's test and its sleep is missed: if the others are idle, that
      thread sleeps beside the value. */
  lemma {:induction false} MissedIsStuck(s: State, sleeper: nat, pusher: nat)
    requires Inv(s) && s.values > 0 && sleeper < |s.threads| && pusher < |s.threads|
    requires s.threads[sleeper].Dozing? && s.threads[pusher].Notifying?
    requires forall t :: 0 <= t < |s.threads| && t != sleeper && t != pusher ==> s.threads[t].Idle?
    ensures var s' := RunAll(s, [Run(pusher, pusher), Run(sleeper, 0)]); Stuck(s') && s'.missed
  {
    var first, second := Run(pusher, pusher), Run(sleeper, 0);
    Twice(s, first, second);
    assert s.threads[sleeper] == Dozing;
    assert Next(s, first) == Goto(s, pusher, Idle).(missed := true);
    assert Next(Next(s, first), second).threads[sleeper] == Asleep;
  }

  lemma {:induction false} Twice(s: State, first: Step, second: Step)
    ensures RunAll(s, [first, second]) == Next(Next(s, first), second)
  {
    assert [first, second][1..] == [second] && [second][1..] == [];
    assert Runs.Run(Next, Next(s, first), [second]) == Next(Next(s, first), second);
  }

  lemma {:induction false} AlmostMissed(n: nat) returns (steps: seq<Step>)
    requires n >= 2
    ensures var s := RunAll(Init(n), steps);
      && |s.threads| == n && s.values > 0 && s.threads[0].Dozing? && s.threads[1].Notifying?
      && forall t :: 2 <= t < n ==> s.threads[t].Idle?
  {
    steps := [CallWait(0), Run(0, 0), Run(0, 0), CallPush(1), Run(1, 0)];
    var s1 := Next(Init(n), steps[0]);
    var s2 := Next(s1, steps[1]);
    var s3 := Next(s2, steps[2]);
    var s4 := Next(s3, steps[3]);
    assert steps[1..][1..][1..][1..][1..] == [];
    assert RunAll(s2, steps[1..][1..]) == RunAll(s3, steps[1..][1..][1..]) == RunAll(s4, steps[1..][1..][1..][1..]);
  }

  /** A value can be in the queue for ever while a thread waits for one exactly if there are two threads. */
  lemma {:induction false} StuckIffTwoThreads(n: nat)
    ensures (exists steps :: Stuck(RunAll(Init(n), steps))) <==> n >= 2
  {
    hide RunAll, Count, Stuck;
    if n >= 2 {
      var steps := AlmostMissed(n);
      var s := RunAll(Init(n), steps);
      RunAllKeepsInv(n, steps);
      MissedIsStuck(s, 0, 1);
      var more := Runs.Then(Next, Init(n), steps, [Run(1, 1), Run(0, 0)]);
      RunAllIsRun(Init(n), more);
      RunAllIsRun(Init(n), steps);
      RunAllIsRun(s, [Run(1, 1), Run(0, 0)]);
      assert Stuck(RunAll(Init(n), more));
    }
    forall steps | Stuck(RunAll(Init(n), steps))
      ensures n >= 2
    {
      StuckIsMissed(n, steps);
    }
  }

  lemma {:induction false} RunAllIsRun(s: State, steps: seq<Step>)
    ensures RunAll(s, steps) == Runs.Run(Next, s, steps)
  {
  }

  lemma {:induction false} StuckIsMissed(n: nat, steps: seq<Step>)
    requires Stuck(RunAll(Init(n), steps))
    ensures RunAll(Init(n), steps).missed && n >= 2
  {
    hide RunAll, Count;
    RunAllKeepsInv(n, steps);
    if !RunAll(Init(n), steps).missed {
      SomebodyForEachValue(n, steps);
    }
  }
}
