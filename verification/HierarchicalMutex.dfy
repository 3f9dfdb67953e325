/**
 * Mutexes with a level: a thread may lock one only if its level is below that of the last one it
 * locked, which a thread-local variable remembers.
 */
module HierarchicalMutex {
  import opened Options
  import Runs

  /** `previous` is the thread-local value that the lock replaced. */
  datatype Mutex = Mutex(level: nat, previous: nat, owner: Option<nat>)

  datatype Pc =
    | Idle
    | Waiting(mutex: nat)      // has passed the check and takes the internal mutex
    | Trying(mutex: nat)       // the same for `try_lock`, which does not wait
    | Entering(mutex: nat)     // has the internal mutex
    | Leaving(mutex: nat)      // has restored the thread-local value
    | Throwing

  /** `held` is history: the mutexes the thread has locked and not begun to unlock, oldest first. */
  datatype Thread = Thread(current: nat, pc: Pc, held: seq<nat>)

  /** `top` is the largest value of the levels' type, the thread-local value at the start. */
  datatype State = State(mutexes: seq<Mutex>, threads: seq<Thread>, top: nat)

  datatype Step =
    | CallLock(thread: nat, mutex: nat)
    | CallTryLock(thread: nat, mutex: nat)
    | CallUnlock(thread: nat, mutex: nat)
    | Run(thread: nat)

  function Put(s: State, t: nat, thread: Thread): State
    requires t < |s.threads|
  {
    s.(threads := s.threads[t := thread])
  }

  /** The check that both kinds of lock begin with. */
  function Check(s: State, t: nat, m: nat, pc: Pc): State
    requires t < |s.threads| && m < |s.mutexes|
  {
    Put(s, t, s.threads[t].(pc := if s.threads[t].current <= s.mutexes[m].level then Throwing else pc))
  }

  function WithoutMutex(held: seq<nat>, m: nat): seq<nat> {
    if held == [] then []
    else if held[|held| - 1] == m then held[..|held| - 1]
    else WithoutMutex(held[..|held| - 1], m) + [held[|held| - 1]]
  }

  /** Unlocking restores the thread-local value before it lets go of the internal mutex. */
  function BeginUnlock(s: State, t: nat, m: nat): State
    requires t < |s.threads| && m < |s.mutexes|
  {
    Put(s, t, Thread(s.mutexes[m].previous, Leaving(m), WithoutMutex(s.threads[t].held, m)))
  }

  function RunThread(s: State, t: nat): State
    requires t < |s.threads|
  {
    var thread := s.threads[t];
    match thread.pc
    case Idle => s
    case Throwing => Put(s, t, thread.(pc := Idle))
    case Waiting(m) =>
      if m >= |s.mutexes| || s.mutexes[m].owner.Some? then s
      else Put(s.(mutexes := s.mutexes[m := s.mutexes[m].(owner := Some(t))]), t, thread.(pc := Entering(m)))
    case Trying(m) =>
      if m >= |s.mutexes| then s
      else if s.mutexes[m].owner.Some? then Put(s, t, thread.(pc := Idle))
      else Put(s.(mutexes := s.mutexes[m := s.mutexes[m].(owner := Some(t))]), t, thread.(pc := Entering(m)))
    case Entering(m) =>
      if m >= |s.mutexes| then s
      else Put(s.(mutexes := s.mutexes[m := s.mutexes[m].(previous := thread.current)]), t,
             Thread(s.mutexes[m].level, Idle, thread.held + [m]))
    case Leaving(m) =>
      if m >= |s.mutexes| then s
      else Put(s.(mutexes := s.mutexes[m := s.mutexes[m].(owner := None)]), t, thread.(pc := Idle))
  }

  /** A mutex may be unlocked only by the thread that has locked it. */
  function Next(s: State, step: Step): State {
    var t := step.thread;
    if t >= |s.threads| then s
    else
      match step
      case CallLock(_, m) => if s.threads[t].pc.Idle? && m < |s.mutexes| then Check(s, t, m, Waiting(m)) else s
      case CallTryLock(_, m) => if s.threads[t].pc.Idle? && m < |s.mutexes| then Check(s, t, m, Trying(m)) else s
      case CallUnlock(_, m) =>
        if s.threads[t].pc.Idle? && m < |s.mutexes| && m in s.threads[t].held then BeginUnlock(s, t, m) else s
      case Run(_) => RunThread(s, t)
  }

  function Init(levels: seq<nat>, threads: nat, top: nat): State {
    State(
      seq(|levels|, i requires 0 <= i < |levels| => Mutex(levels[i], 0, None)),
      seq(threads, _ => Thread(top, Idle, [])), top)
  }

  function RunAll(s: State, steps: seq<Step>): State {
    Runs.Run(Next, s, steps)
  }

  // ---------- what holds in every state ----------

  /** The mutex unlocked is the one locked last. */
  predicate LastIn(s: State, step: Step) {
    step.CallUnlock? && step.thread < |s.threads| && step.mutex in s.threads[step.thread].held ==>
      var held := s.threads[step.thread].held; held[|held| - 1] == step.mutex
  }

  predicate AllLastIn(s: State, steps: seq<Step>)
    decreases |steps|
  {
    steps == [] || (LastIn(s, steps[0]) && AllLastIn(Next(s, steps[0]), steps[1..]))
  }

  /** The level of the mutex locked last, `top` if there is none. */
  function Innermost(mutexes: seq<Mutex>, held: seq<nat>, top: nat): nat
    requires forall i :: 0 <= i < |held| ==> held[i] < |mutexes|
  {
    if held == [] then top else mutexes[held[|held| - 1]].level
  }

  predicate Owns(thread: Thread, m: nat) {
    m in thread.held || ((thread.pc.Entering? || thread.pc.Leaving?) && thread.pc.mutex == m)
  }

  /** The lock on `held[i]` replaced the level of the mutex locked before it. */
  predicate Replaced(mutexes: seq<Mutex>, held: seq<nat>, top: nat, i: nat) {
    && i < |held| && held[i] < |mutexes| && (i > 0 ==> held[i - 1] < |mutexes|)
    && mutexes[held[i]].previous == if i == 0 then top else mutexes[held[i - 1]].level
  }

  predicate HeldOk(mutexes: seq<Mutex>, held: seq<nat>, top: nat, t: nat) {
    && (forall i :: 0 <= i < |held| ==>
          held[i] < |mutexes| && mutexes[held[i]].owner == Some(t) && mutexes[held[i]].level < top)
    && (forall i, j :: 0 <= i < j < |held| ==> mutexes[held[j]].level < mutexes[held[i]].level)
    && (forall i: nat {:trigger Replaced(mutexes, held, top, i)} :: i < |held| ==> Replaced(mutexes, held, top, i))
  }

  predicate PcOk(mutexes: seq<Mutex>, t: nat, thread: Thread) {
    !thread.pc.Idle? && !thread.pc.Throwing? ==>
      var m := thread.pc.mutex;
      && m < |mutexes| && m !in thread.held
      && (!thread.pc.Leaving? ==> mutexes[m].level < thread.current)
      && (thread.pc.Entering? || thread.pc.Leaving? ==> mutexes[m].owner == Some(t))
  }

  predicate ThreadOk(mutexes: seq<Mutex>, top: nat, t: nat, thread: Thread) {
    && HeldOk(mutexes, thread.held, top, t)
    && thread.current == Innermost(mutexes, thread.held, top)
    && thread.current <= top
    && PcOk(mutexes, t, thread)
  }

  predicate Inv(s: State) {
    && (forall t :: 0 <= t < |s.threads| ==> ThreadOk(s.mutexes, s.top, t, s.threads[t]))
    && (forall m :: 0 <= m < |s.mutexes| && s.mutexes[m].owner.Some? ==>
          s.mutexes[m].owner.value < |s.threads| && Owns(s.threads[s.mutexes[m].owner.value], m))
  }

  lemma {:induction false} WithoutLast(held: seq<nat>, m: nat)
    requires held != [] && held[|held| - 1] == m
    ensures WithoutMutex(held, m) == held[..|held| - 1]
  {
  }

  /** A mutex that is not among those held changes. */
  lemma {:induction false} HeldKept(mutexes: seq<Mutex>, held: seq<nat>, top: nat, t: nat, m: nat, mutex: Mutex)
    requires HeldOk(mutexes, held, top, t) && m < |mutexes| && m !in held
    ensures HeldOk(mutexes[m := mutex], held, top, t)
    ensures Innermost(mutexes[m := mutex], held, top) == Innermost(mutexes, held, top)
  {
    var mutexes' := mutexes[m := mutex];
    forall i: nat | i < |held| ensures Replaced(mutexes', held, top, i) {
      assert Replaced(mutexes, held, top, i);
    }
  }

  lemma {:induction false} HeldMore(mutexes: seq<Mutex>, held: seq<nat>, top: nat, t: nat, m: nat)
    requires HeldOk(mutexes, held, top, t) && m < |mutexes| && mutexes[m].owner == Some(t)
    requires mutexes[m].level < Innermost(mutexes, held, top) <= top
    requires mutexes[m].previous == Innermost(mutexes, held, top)
    ensures HeldOk(mutexes, held + [m], top, t)
  {
    forall i: nat | i < |held + [m]| ensures Replaced(mutexes, held + [m], top, i) {
      assert i < |held| ==> Replaced(mutexes, held, top, i);
    }
  }

  lemma {:induction false} HeldLess(mutexes: seq<Mutex>, held: seq<nat>, top: nat, t: nat)
    requires HeldOk(mutexes, held, top, t) && held != []
    ensures var rest, m := held[..|held| - 1], held[|held| - 1];
      HeldOk(mutexes, rest, top, t) && mutexes[m].previous == Innermost(mutexes, rest, top) <= top && m !in rest
  {
    var rest := held[..|held| - 1];
    assert Replaced(mutexes, held, top, |held| - 1);
    forall i: nat | i < |rest| ensures Replaced(mutexes, rest, top, i) {
      assert Replaced(mutexes, held, top, i);
    }
  }

  /** The thread's own state after a step of another thread. */
  lemma {:induction false} OtherOk(mutexes: seq<Mutex>, m: nat, mutex: Mutex, top: nat, t: nat, thread: Thread)
    requires ThreadOk(mutexes, top, t, thread) && m < |mutexes| && mutex.level == mutexes[m].level
    requires mutexes[m].owner != Some(t)
    ensures ThreadOk(mutexes[m := mutex], top, t, thread)
  {
    HeldKept(mutexes, thread.held, top, t, m, mutex);
  }

  lemma {:induction false} CallKeepsInv(s: State, t: nat, m: nat, pc: Pc)
    requires Inv(s) && t < |s.threads| && m < |s.mutexes|
    requires s.threads[t].pc.Idle? && (pc == Waiting(m) || pc == Trying(m))
    ensures Inv(Check(s, t, m, pc))
  {
    var thread := s.threads[t];
    assert ThreadOk(s.mutexes, s.top, t, thread);
    if s.mutexes[m].level < thread.current {
      AdmittedIff(s.mutexes, thread.held, s.top, t, m);
    }
    assert ThreadOk(s.mutexes, s.top, t, Check(s, t, m, pc).threads[t]);
    hide ThreadOk;
  }

  /** The check lets through exactly the mutexes below all those held. */
  lemma {:induction false} AdmittedIff(mutexes: seq<Mutex>, held: seq<nat>, top: nat, t: nat, m: nat)
    requires HeldOk(mutexes, held, top, t) && m < |mutexes| && mutexes[m].level <= top
    ensures mutexes[m].level < Innermost(mutexes, held, top) <==>
      mutexes[m].level < top && forall i :: 0 <= i < |held| ==> mutexes[m].level < mutexes[held[i]].level
  {
    hide Replaced;
  }

  /** Only the thread itself changes, and it keeps what it owns. */
  lemma {:induction false} ThreadChanges(s: State, t: nat, thread: Thread)
    requires Inv(s) && t < |s.threads| && ThreadOk(s.mutexes, s.top, t, thread)
    requires forall x {:trigger Owns(thread, x)} :: Owns(thread, x) <==> Owns(s.threads[t], x)
    ensures Inv(Put(s, t, thread))
  {
    hide ThreadOk;
    var s' := Put(s, t, thread);
    forall m | 0 <= m < |s.mutexes| && s.mutexes[m].owner.Some?
      ensures Owns(s'.threads[s.mutexes[m].owner.value], m)
    {
      assert Owns(thread, m) <==> Owns(s.threads[t], m);
    }
  }

  lemma {:induction false} UnlockedOk(mutexes: seq<Mutex>, top: nat, t: nat, thread: Thread, m: nat)
    requires ThreadOk(mutexes, top, t, thread) && thread.held != []
    requires thread.held[|thread.held| - 1] == m && thread.pc.Idle?
    ensures m < |mutexes|
    ensures var thread' := Thread(mutexes[m].previous, Leaving(m), thread.held[..|thread.held| - 1]);
      && ThreadOk(mutexes, top, t, thread')
      && forall x {:trigger Owns(thread', x)} :: Owns(thread', x) <==> Owns(thread, x)
  {
    var held := thread.held;
    HeldLess(mutexes, held, top, t);
    assert held == held[..|held| - 1] + [m];
    hide HeldOk;
  }

  lemma {:induction false} UnlockKeepsInv(s: State, t: nat, m: nat)
    requires Inv(s) && t < |s.threads| && m < |s.mutexes| && s.threads[t].pc.Idle?
    requires s.threads[t].held != [] && s.threads[t].held[|s.threads[t].held| - 1] == m
    ensures Inv(BeginUnlock(s, t, m))
  {
    WithoutLast(s.threads[t].held, m);
    assert ThreadOk(s.mutexes, s.top, t, s.threads[t]);
    hide Inv, ThreadOk, WithoutMutex, Owns;
    UnlockedOk(s.mutexes, s.top, t, s.threads[t], m);
    ThreadChanges(s, t, BeginUnlock(s, t, m).threads[t]);
  }

  /** The thread changes one mutex that nobody else owns. */
  lemma {:induction false} ChangeKeepsInv(s: State, t: nat, m: nat, mutex: Mutex, thread: Thread)
    requires Inv(s) && t < |s.threads| && m < |s.mutexes| && mutex.level == s.mutexes[m].level
    requires s.mutexes[m].owner == None || s.mutexes[m].owner == Some(t)
    requires mutex.owner == if Owns(thread, m) then Some(t) else None
    requires forall x :: x != m ==> (Owns(thread, x) <==> Owns(s.threads[t], x))
    requires ThreadOk(s.mutexes[m := mutex], s.top, t, thread)
    ensures Inv(Put(s.(mutexes := s.mutexes[m := mutex]), t, thread))
  {
    var s' := Put(s.(mutexes := s.mutexes[m := mutex]), t, thread);
    forall u | 0 <= u < |s.threads| ensures ThreadOk(s'.mutexes, s'.top, u, s'.threads[u]) {
      if u != t {
        OtherOk(s.mutexes, m, mutex, s.top, u, s.threads[u]);
      }
    }
    hide ThreadOk;
  }

  lemma {:induction false} TakeKeepsInv(s: State, t: nat, m: nat)
    requires Inv(s) && t < |s.threads| && m < |s.mutexes| && s.mutexes[m].owner == None
    requires s.threads[t].pc == Waiting(m) || s.threads[t].pc == Trying(m)
    ensures Inv(RunThread(s, t))
  {
    var thread, mutex := s.threads[t].(pc := Entering(m)), s.mutexes[m].(owner := Some(t));
    assert ThreadOk(s.mutexes, s.top, t, s.threads[t]);
    HeldKept(s.mutexes, thread.held, s.top, t, m, mutex);
    hide HeldOk, Inv;
    ChangeKeepsInv(s, t, m, mutex, thread);
  }

  lemma {:induction false} EnterKeepsInv(s: State, t: nat, m: nat)
    requires Inv(s) && t < |s.threads| && s.threads[t].pc == Entering(m)
    ensures Inv(RunThread(s, t))
  {
    assert ThreadOk(s.mutexes, s.top, t, s.threads[t]);
    var held, mutex := s.threads[t].held, s.mutexes[m].(previous := s.threads[t].current);
    var thread, mutexes' := Thread(mutex.level, Idle, held + [m]), s.mutexes[m := mutex];
    HeldKept(s.mutexes, held, s.top, t, m, mutex);
    HeldMore(mutexes', held, s.top, t, m);
    hide HeldOk, Inv;
    ChangeKeepsInv(s, t, m, mutex, thread);
  }

  lemma {:induction false} LeaveKeepsInv(s: State, t: nat, m: nat)
    requires Inv(s) && t < |s.threads| && s.threads[t].pc == Leaving(m)
    ensures Inv(RunThread(s, t))
  {
    assert ThreadOk(s.mutexes, s.top, t, s.threads[t]);
    var thread, mutex := s.threads[t].(pc := Idle), s.mutexes[m].(owner := None);
    HeldKept(s.mutexes, thread.held, s.top, t, m, mutex);
    hide HeldOk, Inv;
    ChangeKeepsInv(s, t, m, mutex, thread);
  }

  /** As long as every thread unlocks last what it has locked first. */
  lemma {:induction false} NextKeepsInv(s: State, step: Step)
    requires Inv(s) && LastIn(s, step)
    ensures Inv(Next(s, step))
  {
    var t := step.thread;
    if t < |s.threads| {
      assert ThreadOk(s.mutexes, s.top, t, s.threads[t]);
      match step
      case CallLock(_, m) =>
        if s.threads[t].pc.Idle? && m < |s.mutexes| {
          CallKeepsInv(s, t, m, Waiting(m));
        }
      case CallTryLock(_, m) =>
        if s.threads[t].pc.Idle? && m < |s.mutexes| {
          CallKeepsInv(s, t, m, Trying(m));
        }
      case CallUnlock(_, m) =>
        if s.threads[t].pc.Idle? && m < |s.mutexes| && m in s.threads[t].held {
          UnlockKeepsInv(s, t, m);
        }
      case Run(_) => RunKeeps(s, t);
    }
  }

  lemma {:induction false} QuietKeepsInv(s: State, t: nat)
    requires Inv(s) && t < |s.threads|
    ensures Inv(Put(s, t, s.threads[t])) && s.threads[t := s.threads[t]] == s.threads
    ensures !s.threads[t].pc.Entering? && !s.threads[t].pc.Leaving? ==> Inv(Put(s, t, s.threads[t].(pc := Idle)))
  {
    assert ThreadOk(s.mutexes, s.top, t, s.threads[t]);
    assert s.threads[t := s.threads[t]] == s.threads;
    hide HeldOk;
  }

  lemma {:induction false} RunKeeps(s: State, t: nat)
    requires Inv(s) && t < |s.threads|
    ensures Inv(RunThread(s, t))
  {
    var pc := s.threads[t].pc;
    QuietKeepsInv(s, t);
    hide Inv;
    match pc
    case Idle =>
    case Throwing =>
    case Waiting(m) =>
      if m < |s.mutexes| && s.mutexes[m].owner == None {
        TakeKeepsInv(s, t, m);
      }
    case Trying(m) =>
      if m < |s.mutexes| && s.mutexes[m].owner == None {
        TakeKeepsInv(s, t, m);
      }
    case Entering(m) => EnterKeepsInv(s, t, m);
    case Leaving(m) => LeaveKeepsInv(s, t, m);
  }

  lemma {:induction false} RunKeepsInv(s: State, steps: seq<Step>)
    requires Inv(s) && AllLastIn(s, steps)
    ensures Inv(RunAll(s, steps))
    decreases |steps|
  {
    hide Inv, Next, LastIn;
    if steps != [] {
      NextKeepsInv(s, steps[0]);
      RunKeepsInv(Next(s, steps[0]), steps[1..]);
    }
  }

  lemma {:induction false} InitOk(levels: seq<nat>, threads: nat, top: nat)
    ensures Inv(Init(levels, threads, top))
  {
  }

  // ---------- what it is for ----------

  /** In every run in which each thread unlocks last what it has locked first: the levels a thread
      holds decrease strictly, and its thread-local value is the last of them. */
  lemma {:induction false} LevelsDecrease(levels: seq<nat>, threads: nat, top: nat, steps: seq<Step>, t: nat)
    requires AllLastIn(Init(levels, threads, top), steps) && t < |RunAll(Init(levels, threads, top), steps).threads|
    ensures var s := RunAll(Init(levels, threads, top), steps);
      var held := s.threads[t].held;
      && (forall i :: 0 <= i < |held| ==> held[i] < |s.mutexes| && s.mutexes[held[i]].owner == Some(t))
      && (forall i, j :: 0 <= i < j < |held| ==> s.mutexes[held[j]].level < s.mutexes[held[i]].level < top)
      && s.threads[t].current == Innermost(s.mutexes, held, s.top)
  {
    InitOk(levels, threads, top);
    RunKeepsInv(Init(levels, threads, top), steps);
    TopStays(Init(levels, threads, top), steps);
    var s := RunAll(Init(levels, threads, top), steps);
    hide RunAll, Init, AllLastIn;
    assert ThreadOk(s.mutexes, s.top, t, s.threads[t]);
    hide Replaced;
  }

  lemma {:induction false} TopStays(s: State, steps: seq<Step>)
    ensures RunAll(s, steps).top == s.top
  {
    Runs.RunKeeps(Next, (t: State) => t.top == s.top, s, steps);
  }

  /** Thread `t` waits for a mutex that `u` owns. */
  predicate WaitsFor(s: State, t: nat, u: nat) {
    && t < |s.threads| && s.threads[t].pc.Waiting? && s.threads[t].pc.mutex < |s.mutexes|
    && s.mutexes[s.threads[t].pc.mutex].owner == Some(u)
  }

  function Wanted(s: State, t: nat): nat {
    if t < |s.threads| && s.threads[t].pc.Waiting? && s.threads[t].pc.mutex < |s.mutexes| then
      s.mutexes[s.threads[t].pc.mutex].level
    else 0
  }

  /** Along a chain of waiting threads the levels wanted decrease. */
  lemma {:induction false} WantedDecreases(s: State, t: nat, u: nat, v: nat)
    requires Inv(s) && WaitsFor(s, t, u) && WaitsFor(s, u, v)
    ensures Wanted(s, u) < Wanted(s, t)
  {
    var m, held := s.threads[t].pc.mutex, s.threads[u].held;
    assert ThreadOk(s.mutexes, s.top, u, s.threads[u]);
    assert Owns(s.threads[u], m);
    AdmittedIff(s.mutexes, held, s.top, u, s.threads[u].pc.mutex);
    hide Replaced;
  }

  /** Threads that wait for one another in turn. */
  predicate Cycle(s: State, ts: seq<nat>) {
    |ts| > 0 && forall i :: 0 <= i < |ts| ==> WaitsFor(s, ts[i], ts[if i + 1 < |ts| then i + 1 else 0])
  }

  lemma {:induction false} WantedAlong(s: State, ts: seq<nat>, i: nat)
    requires Inv(s) && Cycle(s, ts) && i < |ts|
    ensures i > 0 ==> Wanted(s, ts[i]) < Wanted(s, ts[0])
    decreases i
  {
    if i > 0 {
      WantedAlong(s, ts, i - 1);
      WantedDecreases(s, ts[i - 1], ts[i], ts[if i + 1 < |ts| then i + 1 else 0]);
    }
  }

  /** No cycle of waiting threads is reachable, for any threads and mutexes. */
  lemma {:induction false} NoCycle(s: State, ts: seq<nat>)
    requires Inv(s)
    ensures !Cycle(s, ts)
  {
    if Cycle(s, ts) {
      var n := |ts| - 1;
      WantedAlong(s, ts, n);
      WantedDecreases(s, ts[n], ts[0], ts[if 1 < |ts| then 1 else 0]);
      assert false;
    }
  }

  /** So a thread that waits for an owner waits, in the end, for one that does not itself wait for
      another. */
  lemma {:induction false} SomeOwnerIsFree(s: State, t: nat, u: nat) returns (free: nat)
    requires Inv(s) && WaitsFor(s, t, u)
    ensures free < |s.threads| && forall v :: !WaitsFor(s, free, v)
    decreases Wanted(s, t)
  {
    assert Owns(s.threads[u], s.threads[t].pc.mutex);
    free := u;
    if exists v :: WaitsFor(s, u, v) {
      var v :| WaitsFor(s, u, v);
      WantedDecreases(s, t, u, v);
      free := SomeOwnerIsFree(s, u, v);
    }
  }

  /** Unlocking restores the thread-local value of the mutexes still held exactly if it unlocks the
      one locked last. */
  lemma {:induction false} RestoresIffLast(s: State, t: nat, i: nat)
    requires Inv(s) && t < |s.threads| && i < |s.threads[t].held| && s.threads[t].pc.Idle?
    ensures var held := s.threads[t].held;
      var rest := held[..i] + held[i + 1..];
      && held[i] < |s.mutexes| && WithoutMutex(held, held[i]) == rest
      && (forall j :: 0 <= j < |rest| ==> rest[j] < |s.mutexes|)
      && (BeginUnlock(s, t, held[i]).threads[t].current == Innermost(s.mutexes, rest, s.top) <==> i == |held| - 1)
  {
    var held := s.threads[t].held;
    assert ThreadOk(s.mutexes, s.top, t, s.threads[t]);
    WithoutAt(s.mutexes, held, i);
    assert Replaced(s.mutexes, held, s.top, i);
    hide Replaced, WithoutMutex;
  }

  lemma {:induction false} WithoutAt(mutexes: seq<Mutex>, held: seq<nat>, i: nat)
    requires i < |held| && forall k :: 0 <= k < |held| ==> held[k] < |mutexes|
    requires forall k, l :: 0 <= k < l < |held| ==> mutexes[held[l]].level < mutexes[held[k]].level
    ensures WithoutMutex(held, held[i]) == held[..i] + held[i + 1..]
    decreases |held|
  {
    var n := |held| - 1;
    if i < n {
      WithoutAt(mutexes, held[..n], i);
      assert held[..n][..i] + held[..n][i + 1..] + [held[n]] == held[..i] + held[i + 1..];
    }
  }

  // ---------- calls that nobody interrupts ----------

  predicate CanLock(s: State, t: nat, m: nat) {
    && t < |s.threads| && m < |s.mutexes| && s.threads[t].pc.Idle? && s.mutexes[m].level < s.threads[t].current
  }

  /** Thread `t` has locked `m`. */
  function Taken(s: State, t: nat, m: nat): State
    requires t < |s.threads| && m < |s.mutexes|
  {
    Put(s.(mutexes := s.mutexes[m := Mutex(s.mutexes[m].level, s.threads[t].current, Some(t))]), t,
      Thread(s.mutexes[m].level, Idle, s.threads[t].held + [m]))
  }

  lemma {:induction false} Three(s: State, a: Step, b: Step, c: Step)
    ensures RunAll(s, [a, b, c]) == Next(Next(Next(s, a), b), c)
  {
    hide Next;
    var steps := Runs.Do(Next, s, [], a);
    steps := Runs.Do(Next, s, steps, b);
    steps := Runs.Do(Next, s, steps, c);
    assert steps == [a, b, c];
  }

  lemma {:induction false} SamePut(s: State, t: nat)
    requires t < |s.threads| && s.threads[t].pc.Idle?
    ensures Put(s, t, s.threads[t].(pc := Idle)) == s
  {
    assert s.threads[t := s.threads[t]] == s.threads;
  }

  /** `try_lock` takes the mutex exactly if it is free and below the levels held; otherwise it changes
      nothing. */
  lemma {:induction false} TryLockTakesIff(s: State, t: nat, m: nat)
    requires t < |s.threads| && m < |s.mutexes| && s.threads[t].pc.Idle?
    ensures RunAll(s, [CallTryLock(t, m), Run(t), Run(t)]) ==
      if CanLock(s, t, m) && s.mutexes[m].owner == None then Taken(s, t, m) else s
  {
    hide RunAll;
    Three(s, CallTryLock(t, m), Run(t), Run(t));
    SamePut(s, t);
  }

  /** `lock` does the same, but waits for a mutex that is not free. */
  lemma {:induction false} LockTakesIff(s: State, t: nat, m: nat)
    requires t < |s.threads| && m < |s.mutexes| && s.threads[t].pc.Idle?
    ensures RunAll(s, [CallLock(t, m), Run(t), Run(t)]) ==
      if !CanLock(s, t, m) then s
      else if s.mutexes[m].owner == None then Taken(s, t, m)
      else Put(s, t, s.threads[t].(pc := Waiting(m)))
  {
    hide RunAll;
    Three(s, CallLock(t, m), Run(t), Run(t));
    SamePut(s, t);
  }

  /** Unlocking undoes locking, but for what the mutex remembers. */
  lemma {:induction false} UnlockUndoesLock(s: State, t: nat, m: nat)
    requires CanLock(s, t, m) && s.mutexes[m].owner == None
    ensures RunAll(Taken(s, t, m), [CallUnlock(t, m), Run(t), Run(t)]) ==
      s.(mutexes := s.mutexes[m := s.mutexes[m].(previous := s.threads[t].current)])
  {
    hide RunAll, WithoutMutex;
    var held := s.threads[t].held;
    WithoutLast(held + [m], m);
    assert (held + [m])[..|held|] == held;
    Three(Taken(s, t, m), CallUnlock(t, m), Run(t), Run(t));
    SamePut(s, t);
  }

  // ---------- without that order ----------

  predicate NoUnlock(steps: seq<Step>) {
    forall i :: 0 <= i < |steps| ==> !steps[i].CallUnlock?
  }

  lemma {:induction false} NoUnlockIsLastIn(s: State, steps: seq<Step>)
    requires NoUnlock(steps)
    ensures AllLastIn(s, steps)
    decreases |steps|
  {
    hide Next;
    if steps != [] {
      NoUnlockIsLastIn(Next(s, steps[0]), steps[1..]);
    }
  }

  lemma {:induction false} Locked(s: State, t: nat, m: nat) returns (steps: seq<Step>)
    requires CanLock(s, t, m) && s.mutexes[m].owner == None
    ensures NoUnlock(steps)
    ensures RunAll(s, steps) == Taken(s, t, m)
  {
    hide RunAll, Next;
    steps := [CallLock(t, m), Run(t), Run(t)];
    LockTakesIff(s, t, m);
  }

  lemma {:induction false} Asked(s: State, t: nat, m: nat) returns (steps: seq<Step>)
    requires CanLock(s, t, m)
    ensures NoUnlock(steps)
    ensures RunAll(s, steps) == Put(s, t, s.threads[t].(pc := Waiting(m)))
  {
    steps := Runs.Do(Next, s, [], CallLock(t, m));
  }

  /** Thread `t` has unlocked the mutex `held[i]`, which is not the one it locked last. */
  predicate EarlyUnlock(s: State, t: nat, i: nat) {
    t < |s.threads| && s.threads[t].pc.Idle? && i + 1 < |s.threads[t].held|
  }

  /** What the thread has done when `unlock` returns. */
  lemma {:induction false} Unlocked(s: State, t: nat, i: nat) returns (steps: seq<Step>)
    requires Inv(s) && EarlyUnlock(s, t, i)
    ensures NoUnlock(steps)
    ensures var held := s.threads[t].held;
      var m, last := held[i], held[|held| - 1];
      && m < |s.mutexes| && last < |s.mutexes| && m != last && s.mutexes[last].owner == Some(t)
      && s.mutexes[last].level < s.mutexes[m].level < s.mutexes[m].previous
      && RunAll(Next(s, CallUnlock(t, m)), steps) ==
         Put(s.(mutexes := s.mutexes[m := s.mutexes[m].(owner := None)]), t,
           Thread(s.mutexes[m].previous, Idle, WithoutMutex(held, m)))
  {
    hide WithoutMutex;
    var held := s.threads[t].held;
    assert ThreadOk(s.mutexes, s.top, t, s.threads[t]);
    assert Replaced(s.mutexes, held, s.top, i);
    steps := Runs.Do(Next, Next(s, CallUnlock(t, held[i])), [], Run(t));
  }

  /** After that the thread may ask for a mutex that it holds, and so wait for itself. */
  lemma {:induction false} WaitsForItself(s: State, t: nat, i: nat) returns (steps: seq<Step>)
    requires Inv(s) && EarlyUnlock(s, t, i)
    ensures NoUnlock(steps)
    ensures Cycle(RunAll(Next(s, CallUnlock(t, s.threads[t].held[i])), steps), [t])
  {
    hide RunAll, Next, Inv, WithoutMutex;
    var held := s.threads[t].held;
    var s' := Next(s, CallUnlock(t, held[i]));
    steps := Unlocked(s, t, i);
    var more := Asked(RunAll(s', steps), t, held[|held| - 1]);
    steps := RunOn(s', steps, more);
  }

  lemma {:induction false} RunOn(s: State, steps: seq<Step>, rest: seq<Step>) returns (more: seq<Step>)
    requires NoUnlock(steps) && NoUnlock(rest)
    ensures NoUnlock(more) && RunAll(s, more) == RunAll(RunAll(s, steps), rest)
  {
    more := Runs.Then(Next, s, steps, rest);
  }

  lemma {:induction false} StepAndOn(s: State, steps: seq<Step>, step: Step, rest: seq<Step>)
    returns (more: seq<Step>)
    ensures RunAll(s, more) == RunAll(Next(RunAll(s, steps), step), rest)
  {
    more := Runs.Do(Next, s, steps, step);
    more := Runs.Then(Next, s, more, rest);
  }

  /** And a second thread that could lock the mutex it has unlocked may come to wait for it in turn. */
  lemma {:induction false} WaitForEachOther(s: State, t: nat, i: nat, u: nat) returns (steps: seq<Step>)
    requires Inv(s) && EarlyUnlock(s, t, i) && u != t && u < |s.threads| && s.threads[u].pc.Idle?
    requires s.threads[t].held[i] < |s.mutexes| ==> s.mutexes[s.threads[t].held[i]].level < s.threads[u].current
    ensures NoUnlock(steps)
    ensures Cycle(RunAll(Next(s, CallUnlock(t, s.threads[t].held[i])), steps), [t, u])
  {
    hide RunAll, Next, Inv, WithoutMutex;
    var held := s.threads[t].held;
    var s', m := Next(s, CallUnlock(t, held[i])), held[i];
    steps := Unlocked(s, t, i);
    var more := Locked(RunAll(s', steps), u, m);
    steps := RunOn(s', steps, more);
    more := Asked(RunAll(s', steps), u, held[|held| - 1]);
    steps := RunOn(s', steps, more);
    more := Asked(RunAll(s', steps), t, m);
    steps := RunOn(s', steps, more);
  }

  /** Threads can come to wait in turn, though from here on each unlocks last what it has locked first. */
  ghost predicate CanDeadlock(s: State) {
    exists steps, ts :: AllLastIn(s, steps) && Cycle(RunAll(s, steps), ts)
  }

  lemma {:induction false} InvIsSafe(s: State)
    requires Inv(s)
    ensures !CanDeadlock(s)
  {
    hide Inv, Cycle, RunAll;
    forall steps, ts | AllLastIn(s, steps) ensures !Cycle(RunAll(s, steps), ts) {
      RunKeepsInv(s, steps);
      NoCycle(RunAll(s, steps), ts);
    }
  }

  /** One unlocking in another order is enough: whatever the state, unlocking a mutex makes a deadlock
      reachable exactly if it is not the one locked last. */
  lemma {:induction false} DeadlockIffNotLast(s: State, t: nat, i: nat)
    requires Inv(s) && t < |s.threads| && s.threads[t].pc.Idle? && i < |s.threads[t].held|
    ensures CanDeadlock(Next(s, CallUnlock(t, s.threads[t].held[i]))) <==> i < |s.threads[t].held| - 1
  {
    hide Inv, Next, Cycle, RunAll, CanDeadlock;
    var s' := Next(s, CallUnlock(t, s.threads[t].held[i]));
    if i < |s.threads[t].held| - 1 {
      var steps := WaitsForItself(s, t, i);
      NoUnlockIsLastIn(s', steps);
      Deadlocks(s', steps, [t]);
    } else {
      NextKeepsInv(s, CallUnlock(t, s.threads[t].held[i]));
      InvIsSafe(s');
    }
  }

  lemma {:induction false} Deadlocks(s: State, steps: seq<Step>, ts: seq<nat>)
    requires AllLastIn(s, steps) && Cycle(RunAll(s, steps), ts)
    ensures CanDeadlock(s)
  {
    hide AllLastIn, Cycle, RunAll;
  }

  // ---------- when there can be a deadlock at all ----------

  /** Two mutexes of different levels, both of which can be locked. */
  predicate TwoLevels(levels: seq<nat>, top: nat, a: nat, b: nat) {
    a < |levels| && b < |levels| && levels[b] < levels[a] < top
  }

  /** Thread 0 locks one mutex and then the other. */
  lemma {:induction false} BothLocked(levels: seq<nat>, n: nat, top: nat, a: nat, b: nat) returns (steps: seq<Step>)
    requires n > 0 && TwoLevels(levels, top, a, b)
    ensures var s := RunAll(Init(levels, n, top), steps);
      && Inv(s) && |s.threads| == n && EarlyUnlock(s, 0, 0) && s.threads[0].held[0] == a
      && a < |s.mutexes| && s.mutexes[a].level < top
      && forall u :: 0 < u < n ==> s.threads[u] == Thread(top, Idle, [])
  {
    hide RunAll, Next, Inv;
    var s := Init(levels, n, top);
    steps := Locked(s, 0, a);
    var more := Locked(RunAll(s, steps), 0, b);
    steps := RunOn(s, steps, more);
    InitOk(levels, n, top);
    NoUnlockIsLastIn(s, steps);
    RunKeepsInv(s, steps);
  }

  /** If the threads unlock in any order, two threads and two such mutexes are enough for two threads
      to come to wait for each other. */
  lemma {:induction false} OtherOrderDeadlocks(levels: seq<nat>, n: nat, top: nat, a: nat, b: nat)
    returns (steps: seq<Step>)
    requires n > 1 && TwoLevels(levels, top, a, b)
    ensures Cycle(RunAll(Init(levels, n, top), steps), [0, 1])
  {
    hide RunAll, Next, Inv, Init, Cycle;
    var s := Init(levels, n, top);
    steps := BothLocked(levels, n, top, a, b);
    var more := WaitForEachOther(RunAll(s, steps), 0, 0, 1);
    steps := StepAndOn(s, steps, CallUnlock(0, a), more);
  }

  /** No thread can hold two mutexes. */
  predicate OneLevel(s: State) {
    s.threads == [] || forall a, b :: 0 <= a < |s.mutexes| && 0 <= b < |s.mutexes| ==>
      s.mutexes[b].level >= s.mutexes[a].level || s.mutexes[a].level >= s.top
  }

  lemma {:induction false} OneLevelStays(s: State, step: Step)
    requires Inv(s) && OneLevel(s)
    ensures Inv(Next(s, step)) && OneLevel(Next(s, step))
  {
    LevelsStay(s, step);
    OneLevelIsLastIn(s, step);
    hide Next, LastIn;
    NextKeepsInv(s, step);
    hide Inv;
  }

  lemma {:induction false} LevelsStay(s: State, step: Step)
    ensures var s' := Next(s, step);
      && |s'.threads| == |s.threads| && |s'.mutexes| == |s.mutexes| && s'.top == s.top
      && forall m :: 0 <= m < |s.mutexes| ==> s'.mutexes[m].level == s.mutexes[m].level
  {
    hide WithoutMutex;
  }

  lemma {:induction false} OneLevelIsLastIn(s: State, step: Step)
    requires Inv(s) && OneLevel(s)
    ensures LastIn(s, step)
  {
    hide HeldOk;
    if step.thread < |s.threads| {
      assert ThreadOk(s.mutexes, s.top, step.thread, s.threads[step.thread]);
      if |s.threads[step.thread].held| > 1 {
        HeldApart(s.mutexes, s.threads[step.thread].held, s.top, step.thread);
      }
    }
  }

  lemma {:induction false} HeldApart(mutexes: seq<Mutex>, held: seq<nat>, top: nat, t: nat)
    requires HeldOk(mutexes, held, top, t) && |held| > 1
    ensures held[0] < |mutexes| && held[1] < |mutexes| && mutexes[held[1]].level < mutexes[held[0]].level < top
  {
    hide Replaced;
  }

  /** With unlocking in any order, a deadlock is possible exactly if there are a thread and two mutexes
      of different levels, both below `top`. */
  lemma {:induction false} DeadlocksIffTwoLevels(levels: seq<nat>, n: nat, top: nat)
    ensures (exists steps, ts :: Cycle(RunAll(Init(levels, n, top), steps), ts)) <==>
      n > 0 && exists a, b :: TwoLevels(levels, top, a, b)
  {
    hide RunAll, Cycle, Next, Inv;
    var s := Init(levels, n, top);
    if n > 0 && exists a, b :: TwoLevels(levels, top, a, b) {
      var a, b :| TwoLevels(levels, top, a, b);
      var steps := BothLocked(levels, n, top, a, b);
      var more := WaitsForItself(RunAll(s, steps), 0, 0);
      steps := StepAndOn(s, steps, CallUnlock(0, a), more);
      assert Cycle(RunAll(s, steps), [0]);
    } else {
      assert forall a: nat, b: nat :: n > 0 ==> !TwoLevels(levels, top, a, b);
      forall steps, ts ensures !Cycle(RunAll(s, steps), ts) {
        OneLevelIsSafe(levels, n, top, steps, ts);
      }
    }
  }

  lemma {:induction false} OneLevelIsSafe(levels: seq<nat>, n: nat, top: nat, steps: seq<Step>, ts: seq<nat>)
    requires n > 0 ==> forall a: nat, b: nat :: !TwoLevels(levels, top, a, b)
    ensures !Cycle(RunAll(Init(levels, n, top), steps), ts)
  {
    hide Next, Inv, Cycle;
    var s := Init(levels, n, top);
    InitOk(levels, n, top);
    assert OneLevel(s) by {
      forall a: nat, b: nat | n > 0 && a < |levels| && b < |levels| ensures levels[b] >= levels[a] || levels[a] >= top {
        assert !TwoLevels(levels, top, a, b);
      }
    }
    hide OneLevel;
    forall s, step | Inv(s) && OneLevel(s) ensures Inv(Next(s, step)) && OneLevel(Next(s, step)) {
      OneLevelStays(s, step);
    }
    Runs.RunKeeps(Next, (s: State) => Inv(s) && OneLevel(s), s, steps);
    NoCycle(RunAll(s, steps), ts);
  }

  // ---------- the object ----------

  /** The steps done in place. */
  class Mutexes {
    var mutexes: seq<Mutex>
    var threads: seq<Thread>
    const top: nat

    ghost function Current(): State
      reads this
    {
      State(mutexes, threads, top)
    }

    constructor (levels: seq<nat>, n: nat, top: nat)
      ensures Current() == Init(levels, n, top) && Inv(Current())
    {
      mutexes := seq(|levels|, i requires 0 <= i < |levels| => Mutex(levels[i], 0, None));
      threads := seq(n, _ => Thread(top, Idle, []));
      this.top := top;
      new;
      InitOk(levels, n, top);
    }

    method CheckForHierarchyViolation(t: nat, m: nat, next: Pc)
      requires t < |threads| && m < |mutexes|
      modifies this`threads
      ensures Current() == Check(old(Current()), t, m, next)
    {
      if threads[t].current <= mutexes[m].level {
        threads := threads[t := threads[t].(pc := Throwing)];
      } else {
        threads := threads[t := threads[t].(pc := next)];
      }
    }

    method UpdateHierarchyValue(t: nat, m: nat)
      requires t < |threads| && m < |mutexes| && threads[t].pc == Entering(m)
      modifies this
      ensures Current() == RunThread(old(Current()), t)
    {
      mutexes := mutexes[m := mutexes[m].(previous := threads[t].current)];
      threads := threads[t := Thread(mutexes[m].level, Idle, threads[t].held + [m])];
    }

    method TakeInternal(t: nat, m: nat)
      requires t < |threads| && m < |mutexes|
      modifies this
      ensures Current() == var s := old(Current());
        Put(s.(mutexes := s.mutexes[m := s.mutexes[m].(owner := Some(t))]), t, s.threads[t].(pc := Entering(m)))
    {
      mutexes := mutexes[m := mutexes[m].(owner := Some(t))];
      threads := threads[t := threads[t].(pc := Entering(m))];
    }

    method StepThread(t: nat)
      requires t < |threads|
      modifies this
      ensures Current() == RunThread(old(Current()), t)
    {
      match threads[t].pc {
        case Idle =>
        case Throwing => threads := threads[t := threads[t].(pc := Idle)];
        case Waiting(m) =>
          if m < |mutexes| && mutexes[m].owner.None? {
            TakeInternal(t, m);
          }
        case Trying(m) =>
          if m < |mutexes| {
            if mutexes[m].owner.None? {
              TakeInternal(t, m);
            } else {
              threads := threads[t := threads[t].(pc := Idle)];
            }
          }
        case Entering(m) =>
          if m < |mutexes| {
            UpdateHierarchyValue(t, m);
          }
        case Leaving(m) =>
          if m < |mutexes| {
            mutexes := mutexes[m := mutexes[m].(owner := None)];
            threads := threads[t := threads[t].(pc := Idle)];
          }
      }
    }

    /** One step of a thread; unlocking in the reverse order keeps the invariant. */
    method Step(step: Step)
      modifies this
      ensures Current() == Next(old(Current()), step)
      ensures old(Inv(Current()) && LastIn(Current(), step)) ==> Inv(Current())
    {
      hide Inv, LastIn, RunThread, Check;
      if Inv(Current()) && LastIn(Current(), step) {
        NextKeepsInv(Current(), step);
      }
      var t := step.thread;
      if t < |threads| {
        match step {
          case CallLock(_, m) =>
            if threads[t].pc.Idle? && m < |mutexes| {
              CheckForHierarchyViolation(t, m, Waiting(m));
            }
          case CallTryLock(_, m) =>
            if threads[t].pc.Idle? && m < |mutexes| {
              CheckForHierarchyViolation(t, m, Trying(m));
            }
          case CallUnlock(_, m) =>
            if threads[t].pc.Idle? && m < |mutexes| && m in threads[t].held {
              threads := threads[t := Thread(mutexes[m].previous, Leaving(m), WithoutMutex(threads[t].held, m))];
            }
          case Run(_) => StepThread(t);
        }
      }
    }
  }
}
