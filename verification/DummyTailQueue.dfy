/**
 * The queues that end in a dummy node: the one with a mutex at either end, for any number of
 * producers and consumers, and the lock-free one for a single producer and a single consumer. They
 * do the same to the nodes; the second has no mutexes and never waits.
 *
 * Nodes live in a map from addresses; `delete` removes an entry, and an address may be used again.
 * `fault` is set by an access to a node that is not there, or to a value that is not.
 */
module DummyTailQueue {
  import opened Histories
  import opened Options
  import Runs

  type Addr = nat

  datatype Node = Node(data: Option<int>, next: Addr)

  /** Whether there are mutexes. Without them thread 0 is the producer and thread 1 the consumer. */
  datatype Mode = TwoLocks | LockFree

  /** `wait_and_pop` waits for a value and `try_pop` does not. The variants that store the value through
      a reference take it before they unlink the node. */
  datatype PopKind = PopKind(waits: bool, into: bool)

  datatype Pc =
    | Idle
    | PushNew(value: int)
    | PushLock(node: Addr, value: int)
    | PushLoad(node: Addr, value: int)
    | PushData(node: Addr, value: int, last: Addr)
    | PushNext(node: Addr, value: int, last: Addr)
    | PushTail(node: Addr, value: int, last: Addr)
    | PushUnlock(value: int)
    | PushDone(value: int)
    | PopLock(kind: PopKind)
    | PopTest(kind: PopKind)
    | PopRead(first: Addr)
    | PopHead(first: Addr, taken: Option<int>)
    | PopUnlock(first: Addr, taken: Option<int>)
    | PopTake(first: Addr, taken: Option<int>)
    | PopDelete(first: Addr, value: int)
    | PopDone(value: int)
    | EmptyUnlock
    | EmptyDone

  /** The last four fields are history, and without mutexes so are the two before them. */
  datatype State = State(
    mode: Mode, heap: map<Addr, Node>, head: Addr, tail: Addr, threads: seq<Pc>, fault: bool,
    headLock: Option<nat>, tailLock: Option<nat>,
    chain: seq<Addr>, log: seq<Event>, calls: seq<Call>, completed: seq<Completed>)

  datatype Step =
    | CallPush(thread: nat, value: int)
    | CallPop(thread: nat, kind: PopKind)
    | Run(thread: nat, slot: Addr)

  // ---------- the steps ----------

  function Goto(s: State, t: nat, pc: Pc): State
    requires t < |s.threads|
  {
    s.(threads := s.threads[t := pc])
  }

  function Fault(s: State): State {
    s.(fault := true)
  }

  function Log(s: State, t: nat, event: Event): State
    requires t < |s.calls|
  {
    s.(log := s.log + [event], calls := s.calls[t := Effective(Asked(s.calls[t]), Since(s.calls[t]), |s.log|)])
  }

  function Return(s: State, t: nat, event: Event): State
    requires t < |s.threads| && t < |s.calls|
  {
    var at := if s.calls[t].Effective? then s.calls[t].at else 0;
    Goto(s, t, Idle).(
      calls := s.calls[t := NoCall],
      completed := s.completed + [Completed(Asked(s.calls[t]), event, Since(s.calls[t]), at, |s.log|)])
  }

  predicate HasData(heap: map<Addr, Node>, n: Addr) {
    n in heap && heap[n].data.Some?
  }

  function PushStep(s: State, t: nat, slot: Addr): State
    requires t < |s.threads| && t < |s.calls|
  {
    match s.threads[t]
    case PushNew(v) =>
      if slot == 0 || slot in s.heap then s
      else Goto(s.(heap := s.heap[slot := Node(None, 0)]), t, PushLock(slot, v))
    case PushLock(n, v) =>
      if s.mode.TwoLocks? && s.tailLock.Some? then s else Goto(s.(tailLock := Some(t)), t, PushLoad(n, v))
    case PushLoad(n, v) => Goto(s, t, PushData(n, v, s.tail))
    case PushData(n, v, last) =>
      if last !in s.heap then Fault(s)
      else Goto(s.(heap := s.heap[last := s.heap[last].(data := Some(v))]), t, PushNext(n, v, last))
    case PushNext(n, v, last) =>
      if last !in s.heap then Fault(s)
      else Goto(s.(heap := s.heap[last := s.heap[last].(next := n)]), t, PushTail(n, v, last))
    case PushTail(n, v, last) =>
      if !HasData(s.heap, last) then Fault(s)
      else Goto(Log(s, t, Pushed(t, s.heap[last].data.value)).(tail := n, chain := s.chain + [n]), t, PushUnlock(v))
    case PushUnlock(v) => Goto(s.(tailLock := None), t, PushDone(v))
    case PushDone(v) => Return(s, t, Pushed(t, v))
    case _ => s
  }

  function Unlink(s: State, t: nat, first: Addr, taken: Option<int>): State
    requires t < |s.threads| && t < |s.calls|
  {
    if !HasData(s.heap, first) then Fault(s)
    else
      Goto(Log(s, t, Popped(t, s.heap[first].data.value)).(
        head := s.heap[first].next, chain := if s.chain == [] then [] else s.chain[1..]), t, PopUnlock(first, taken))
  }

  /** The test of `wait_and_pop` locks the tail's mutex; a queue found empty makes it wait and start
      anew. The other tests read the tail without a lock. */
  function Test(s: State, t: nat, kind: PopKind): State
    requires t < |s.threads| && t < |s.calls|
  {
    if kind.waits && s.mode.TwoLocks? && s.tailLock.Some? then s
    else if s.head == s.tail then
      if kind.waits then Goto(s.(headLock := None), t, PopLock(kind))
      else Goto(Log(s, t, FoundEmpty(t)), t, EmptyUnlock)
    else Goto(s, t, if kind.into then PopRead(s.head) else PopHead(s.head, None))
  }

  function PopStep(s: State, t: nat): State
    requires t < |s.threads| && t < |s.calls|
  {
    match s.threads[t]
    case PopLock(kind) =>
      if s.mode.TwoLocks? && s.headLock.Some? then s else Goto(s.(headLock := Some(t)), t, PopTest(kind))
    case PopTest(kind) => Test(s, t, kind)
    case PopRead(first) =>
      if !HasData(s.heap, first) then Fault(s) else Goto(s, t, PopHead(first, s.heap[first].data))
    case PopHead(first, taken) => Unlink(s, t, first, taken)
    case PopUnlock(first, taken) => Goto(s.(headLock := None), t, PopTake(first, taken))
    case PopTake(first, taken) =>
      if taken.Some? then Goto(s, t, PopDelete(first, taken.value))
      else if !HasData(s.heap, first) then Fault(s)
      else Goto(s, t, PopDelete(first, s.heap[first].data.value))
    case PopDelete(first, v) => if first !in s.heap then Fault(s) else Goto(s.(heap := s.heap - {first}), t, PopDone(v))
    case PopDone(v) => Return(s, t, Popped(t, v))
    case EmptyUnlock => Goto(s.(headLock := None), t, EmptyDone)
    case EmptyDone => Return(s, t, FoundEmpty(t))
    case _ => s
  }

  predicate Pushes(pc: Pc) {
    || pc.PushNew? || pc.PushLock? || pc.PushLoad? || pc.PushData? || pc.PushNext? || pc.PushTail?
    || pc.PushUnlock? || pc.PushDone?
  }

  function Begin(s: State, t: nat, pc: Pc, op: Operation): State
    requires t < |s.threads| && t < |s.calls|
  {
    if s.threads[t].Idle? then Goto(s, t, pc).(calls := s.calls[t := Begun(op, |s.log|)]) else s
  }

  function Next(s: State, step: Step): State {
    var t := step.thread;
    if t >= |s.threads| || t >= |s.calls| then s
    else
      match step
      case CallPush(_, value) => if s.mode.LockFree? && t != 0 then s else Begin(s, t, PushNew(value), Push(value))
      case CallPop(_, kind) => if s.mode.LockFree? && t != 1 then s else Begin(s, t, PopLock(kind), Pop(kind.waits))
      case Run(_, slot) => if Pushes(s.threads[t]) then PushStep(s, t, slot) else PopStep(s, t)
  }

  function Init(mode: Mode, n: nat): State {
    State(mode, map[1 := Node(None, 0)], 1, 1, seq(n, _ => Idle), false, None, None, [1], [], seq(n, _ => NoCall), [])
  }

  function RunAll(s: State, steps: seq<Step>): State {
    Runs.Run(Next, s, steps)
  }

  // ---------- what holds in every state ----------

  /** The node that only this thread knows of; 0 if none. */
  function Owns(pc: Pc): Addr {
    match pc
    case PushLock(n, _) => n
    case PushLoad(n, _) => n
    case PushData(n, _, _) => n
    case PushNext(n, _, _) => n
    case PushTail(n, _, _) => n
    case PopUnlock(first, _) => first
    case PopTake(first, _) => first
    case PopDelete(first, _) => first
    case _ => 0
  }

  predicate AtTail(pc: Pc) {
    pc.PushLoad? || pc.PushData? || pc.PushNext? || pc.PushTail? || pc.PushUnlock?
  }

  predicate AtHead(pc: Pc) {
    pc.PopTest? || pc.PopRead? || pc.PopHead? || pc.PopUnlock? || pc.EmptyUnlock?
  }

  predicate LinkAt(heap: map<Addr, Node>, chain: seq<Addr>, i: nat) {
    i + 1 < |chain| && HasData(heap, chain[i]) && heap[chain[i]].next == chain[i + 1]
  }

  /** From the head to the dummy node at the tail. */
  predicate Linked(heap: map<Addr, Node>, head: Addr, tail: Addr, chain: seq<Addr>) {
    && chain != [] && chain[0] == head && chain[|chain| - 1] == tail
    && (forall i :: 0 <= i < |chain| ==> chain[i] != 0 && chain[i] in heap)
    && (forall i, j :: 0 <= i < j < |chain| ==> chain[i] != chain[j])
    && (forall i: nat {:trigger LinkAt(heap, chain, i)} :: i + 1 < |chain| ==> LinkAt(heap, chain, i))
  }

  function DataAt(heap: map<Addr, Node>, n: Addr): int {
    if HasData(heap, n) then heap[n].data.value else 0
  }

  /** The values in the queue; the dummy node holds none. */
  function Values(heap: map<Addr, Node>, chain: seq<Addr>): seq<int>
    requires chain != []
  {
    seq(|chain| - 1, i requires 0 <= i < |chain| - 1 => DataAt(heap, chain[i]))
  }

  predicate ThreadOk(heap: map<Addr, Node>, head: Addr, tail: Addr, chain: seq<Addr>, pc: Pc) {
    && (Owns(pc) != 0 ==> Owns(pc) in heap && Owns(pc) !in chain)
    && (Pushes(pc) && !pc.PushNew? && !pc.PushUnlock? && !pc.PushDone? ==>
          Owns(pc) != 0 && heap[Owns(pc)] == Node(None, 0))
    && (pc.PushData? || pc.PushNext? || pc.PushTail? ==> pc.last == tail)
    && (pc.PushNext? || pc.PushTail? ==> tail in heap && heap[tail].data == Some(pc.value))
    && (pc.PushTail? ==> tail in heap && heap[tail].next == pc.node)
    && (pc.PopRead? || pc.PopHead? ==> pc.first == head && head != tail)
    && (pc.PopUnlock? || pc.PopTake? ==> pc.first != 0 && HasData(heap, pc.first))
    && (pc.PopHead? || pc.PopUnlock? || pc.PopTake? ==> pc.taken in {None, Some(DataAt(heap, pc.first))})
    && (pc.PopDelete? ==> pc.first != 0)
  }

  predicate Apart(pc: Pc, other: Pc) {
    && (Owns(pc) != 0 ==> Owns(pc) != Owns(other))
    && !(AtTail(pc) && AtTail(other)) && !(AtHead(pc) && AtHead(other))
  }

  predicate HasEffect(pc: Pc) {
    || pc.PushUnlock? || pc.PushDone? || pc.PopUnlock? || pc.PopTake? || pc.PopDelete? || pc.PopDone?
    || pc.EmptyUnlock? || pc.EmptyDone?
  }

  /** The event of a call that took effect, as the thread will report it. */
  function Report(heap: map<Addr, Node>, t: nat, pc: Pc): Event {
    match pc
    case PushUnlock(v) => Pushed(t, v)
    case PushDone(v) => Pushed(t, v)
    case PopUnlock(first, _) => Popped(t, DataAt(heap, first))
    case PopTake(first, _) => Popped(t, DataAt(heap, first))
    case PopDelete(_, v) => Popped(t, v)
    case PopDone(v) => Popped(t, v)
    case _ => FoundEmpty(t)
  }

  /** The thread is at what was asked for, and reports an empty queue only if it need not wait. */
  predicate Fits(pc: Pc, op: Operation) {
    match pc
    case PushNew(v) => op == Push(v)
    case PushLock(_, v) => op == Push(v)
    case PushLoad(_, v) => op == Push(v)
    case PushData(_, v, _) => op == Push(v)
    case PushNext(_, v, _) => op == Push(v)
    case PushTail(_, v, _) => op == Push(v)
    case PushUnlock(v) => op == Push(v)
    case PushDone(v) => op == Push(v)
    case PopLock(kind) => op == Pop(kind.waits)
    case PopTest(kind) => op == Pop(kind.waits)
    case EmptyUnlock => op == Pop(false)
    case EmptyDone => op == Pop(false)
    case Idle => true
    case _ => op.Pop?
  }

  predicate CallOk(heap: map<Addr, Node>, log: seq<Event>, t: nat, pc: Pc, call: Call) {
    if pc.Idle? then call.NoCall?
    else CallInStep(log, t, call, HasEffect(pc), Report(heap, t, pc)) && Fits(pc, Asked(call))
  }

  /** Without mutexes thread 0 only pushes and thread 1 only pops. */
  predicate RoleOk(mode: Mode, t: nat, pc: Pc) {
    mode.LockFree? && !pc.Idle? ==> t == if Pushes(pc) then 0 else 1
  }

  /** A thread between locking and unlocking holds the mutex. */
  predicate LocksOk(headLock: Option<nat>, tailLock: Option<nat>, t: nat, pc: Pc) {
    (AtHead(pc) <==> headLock == Some(t)) && (AtTail(pc) <==> tailLock == Some(t))
  }

  /** What a state says about thread `u`, while another moves. */
  predicate ThreadInv(s: State, u: nat, pc: Pc, call: Call) {
    && ThreadOk(s.heap, s.head, s.tail, s.chain, pc) && CallOk(s.heap, s.log, u, pc, call)
    && RoleOk(s.mode, u, pc) && LocksOk(s.headLock, s.tailLock, u, pc)
  }

  predicate WholeOk(s: State) {
    && !s.fault && Linked(s.heap, s.head, s.tail, s.chain)
    && |s.calls| == |s.threads|
    && (s.headLock.Some? ==> s.headLock.value < |s.threads|) && (s.tailLock.Some? ==> s.tailLock.value < |s.threads|)
    && Replay(Queue, s.log) == Legal(Values(s.heap, s.chain))
    && forall i :: 0 <= i < |s.completed| ==> CompletedOk(s.log, s.completed[i])
  }

  predicate Inv(s: State) {
    && WholeOk(s)
    && (forall t :: 0 <= t < |s.threads| ==> ThreadInv(s, t, s.threads[t], s.calls[t]))
    && (forall t, u :: 0 <= t < |s.threads| && 0 <= u < |s.threads| && t != u ==> Apart(s.threads[t], s.threads[u]))
  }

  // ---------- one thread moves ----------

  predicate OtherOk(s: State, mover: Pc, u: nat, pc: Pc, call: Call) {
    ThreadInv(s, u, pc, call) && Apart(pc, mover) && Apart(mover, pc)
  }

  predicate OthersOk(s: State, s': State, t: nat)
    requires t < |s.threads| == |s.calls| && |s'.threads| == |s.threads|
  {
    forall u :: 0 <= u < |s.threads| && u != t ==> OtherOk(s', s'.threads[t], u, s.threads[u], s.calls[u])
  }

  predicate MovedOnly(s: State, s': State, t: nat) {
    && t < |s.threads| == |s.calls| && |s'.threads| == |s'.calls| == |s.threads| && s'.mode == s.mode
    && s'.threads == s.threads[t := s'.threads[t]] && s'.calls == s.calls[t := s'.calls[t]]
  }

  predicate Ready(s: State, t: nat) {
    && WholeOk(s) && t < |s.threads| == |s.calls|
    && ThreadInv(s, t, s.threads[t], s.calls[t]) && OthersOk(s, s, t)
  }

  predicate StepOk(s: State, s': State, t: nat) {
    && MovedOnly(s, s', t) && WholeOk(s') && ThreadInv(s', t, s'.threads[t], s'.calls[t]) && OthersOk(s, s', t)
  }

  lemma {:induction false} InvGivesReady(s: State, t: nat)
    requires Inv(s) && t < |s.threads|
    ensures Ready(s, t)
  {
    hide ThreadInv, Apart, Linked, Replay, Values;
  }

  lemma {:induction false} Finish(s: State, s': State, t: nat)
    requires Inv(s) && StepOk(s, s', t)
    ensures Inv(s')
  {
    hide ThreadInv, Apart, WholeOk;
    forall u | 0 <= u < |s'.threads| ensures ThreadInv(s', u, s'.threads[u], s'.calls[u]) {
      assert u != t ==> OtherOk(s', s'.threads[t], u, s.threads[u], s.calls[u]);
    }
    forall u, v | 0 <= u < |s'.threads| && 0 <= v < |s'.threads| && u != v ensures Apart(s'.threads[u], s'.threads[v]) {
      assert u != t ==> OtherOk(s', s'.threads[t], u, s.threads[u], s.calls[u]);
      assert v != t ==> OtherOk(s', s'.threads[t], v, s.threads[v], s.calls[v]);
    }
  }

  // ---------- what a move does to the others ----------

  /** All a step changes in the heap is the node at `a`: the mover's own, a new one, or the dummy node
      while the mover is at the tail. Either end changes only while the mover is there. */
  predicate Local(s: State, s': State, mover: Pc, mover': Pc, a: Addr) {
    && s'.mode == s.mode
    && (forall x :: x in s.heap && x != a ==> x in s'.heap && s'.heap[x] == s.heap[x])
    && ((a == Owns(mover) && a !in s.chain) || a !in s.heap || (a == s.tail && a in s'.heap && AtTail(mover)))
    && (s'.tail == s.tail || AtTail(mover)) && (s'.head == s.head || AtHead(mover))
    && (s'.head == s.head && s.head != s.tail ==> s'.head != s'.tail)
    && (forall x :: x in s'.chain ==> x in s.chain || x == Owns(mover))
    && s.tail in s.chain && s.head in s.chain && (forall x :: x in s.chain ==> x in s.heap)
    && (Owns(mover') == Owns(mover) || Owns(mover') == 0 || Owns(mover') !in s.heap || Owns(mover') in s.chain)
  }

  /** Who else is at an end, or comes to it. */
  predicate EndsOk(s: State, s': State, mover: Pc, mover': Pc, u: nat, pc: Pc) {
    && (AtTail(mover') ==> AtTail(mover) || !AtTail(pc))
    && (AtHead(mover') ==> AtHead(mover) || !AtHead(pc))
    && (s'.headLock == Some(u) <==> s.headLock == Some(u))
    && (s'.tailLock == Some(u) <==> s.tailLock == Some(u))
  }

  lemma {:induction false} OtherThread(s: State, s': State, mover: Pc, mover': Pc, a: Addr, u: nat, pc: Pc, call: Call)
    requires OtherOk(s, mover, u, pc, call) && Local(s, s', mover, mover', a)
    ensures ThreadOk(s'.heap, s'.head, s'.tail, s'.chain, pc)
  {
    hide CallOk, RoleOk, LocksOk;
  }

  lemma {:induction false} OtherReport(s: State, s': State, mover: Pc, mover': Pc, a: Addr, u: nat, pc: Pc, call: Call)
    requires OtherOk(s, mover, u, pc, call) && Local(s, s', mover, mover', a)
    ensures HasEffect(pc) ==> Report(s'.heap, u, pc) == Report(s.heap, u, pc)
  {
    hide CallOk, RoleOk, LocksOk, AtTail, AtHead;
  }

  lemma {:induction false} OtherOwns(s: State, s': State, mover: Pc, mover': Pc, a: Addr, u: nat, pc: Pc, call: Call)
    requires OtherOk(s, mover, u, pc, call) && Local(s, s', mover, mover', a)
    ensures Owns(mover') != 0 ==> Owns(mover') != Owns(pc)
  {
    hide CallOk, RoleOk, LocksOk, AtTail, AtHead, Owns;
  }

  lemma {:induction false} OtherCall(
    heap: map<Addr, Node>, log: seq<Event>, heap': map<Addr, Node>, log': seq<Event>, event: Event, u: nat, pc: Pc,
    call: Call)
    requires CallOk(heap, log, u, pc, call) && (HasEffect(pc) ==> Report(heap', u, pc) == Report(heap, u, pc))
    requires log' == log || (log' == log + [event] && event.thread != u)
    ensures CallOk(heap', log', u, pc, call)
  {
    hide Report, HasEffect;
    if log' != log && !pc.Idle? {
      OtherCallKept(log, event, u, call, HasEffect(pc), Report(heap, u, pc));
    }
  }

  lemma {:induction false} OtherKept(
    s: State, s': State, mover: Pc, mover': Pc, a: Addr, event: Event, u: nat, pc: Pc, call: Call)
    requires OtherOk(s, mover, u, pc, call) && Local(s, s', mover, mover', a) && EndsOk(s, s', mover, mover', u, pc)
    requires s'.log == s.log || (s'.log == s.log + [event] && event.thread != u)
    ensures OtherOk(s', mover', u, pc, call)
  {
    hide ThreadOk, Local, CallOk, HasEffect, Owns, AtTail, AtHead, Report, EndsOk, LocksOk, RoleOk, Apart;
    SameMode(s, s', mover, mover', a);
    OtherThread(s, s', mover, mover', a, u, pc, call);
    OtherReport(s, s', mover, mover', a, u, pc, call);
    OtherOwns(s, s', mover, mover', a, u, pc, call);
    OtherCall(s.heap, s.log, s'.heap, s'.log, event, u, pc, call);
    OtherLocks(s, s', mover, mover', u, pc);
    OtherApart(s, s', mover, mover', u, pc);
  }

  lemma {:induction false} SameMode(s: State, s': State, mover: Pc, mover': Pc, a: Addr)
    requires Local(s, s', mover, mover', a)
    ensures s'.mode == s.mode
  {
  }

  lemma {:induction false} OtherLocks(s: State, s': State, mover: Pc, mover': Pc, u: nat, pc: Pc)
    requires EndsOk(s, s', mover, mover', u, pc) && LocksOk(s.headLock, s.tailLock, u, pc)
    ensures LocksOk(s'.headLock, s'.tailLock, u, pc)
  {
    hide AtTail, AtHead;
  }

  lemma {:induction false} OtherApart(s: State, s': State, mover: Pc, mover': Pc, u: nat, pc: Pc)
    requires EndsOk(s, s', mover, mover', u, pc) && Apart(pc, mover) && Apart(mover, pc)
    requires Owns(mover') != 0 ==> Owns(mover') != Owns(pc)
    ensures Apart(pc, mover') && Apart(mover', pc)
  {
    hide Owns, AtTail, AtHead;
  }

  lemma {:induction false} OthersKept(s: State, s': State, t: nat, a: Addr, event: Event)
    requires Ready(s, t) && MovedOnly(s, s', t) && Local(s, s', s.threads[t], s'.threads[t], a)
    requires s'.log == s.log || s'.log == s.log + [event]
    requires event.thread == t
    requires s'.headLock == s.headLock || s'.headLock in {None, Some(t)}
    requires s'.tailLock == s.tailLock || s'.tailLock in {None, Some(t)}
    requires EndsFree(s, t, s'.threads[t]) && (s'.headLock != s.headLock ==> s.headLock in {None, Some(t)})
    requires s'.tailLock != s.tailLock ==> s.tailLock in {None, Some(t)}
    ensures OthersOk(s, s', t)
  {
    hide ThreadOk, CallOk, Local, Linked, Replay, Values, CompletedOk;
    forall u | 0 <= u < |s.threads| && u != t ensures OtherOk(s', s'.threads[t], u, s.threads[u], s.calls[u]) {
      assert OtherOk(s, s.threads[t], u, s.threads[u], s.calls[u]);
      OtherKept(s, s', s.threads[t], s'.threads[t], a, event, u, s.threads[u], s.calls[u]);
    }
  }

  /** The mover does not come to an end where another may be. */
  predicate EndsFree(s: State, t: nat, pc: Pc)
    requires t < |s.threads|
  {
    && (AtTail(pc) && !AtTail(s.threads[t]) ==> s.tailLock == None)
    && (AtHead(pc) && !AtHead(s.threads[t]) ==> s.headLock == None)
  }

  // ---------- the nodes ----------

  /** The nodes of the queue but the dummy one stay. */
  lemma {:induction false} LinkedKept(
    heap: map<Addr, Node>, heap': map<Addr, Node>, head: Addr, tail: Addr, chain: seq<Addr>)
    requires Linked(heap, head, tail, chain) && tail in heap'
    requires forall i :: 0 <= i < |chain| - 1 ==>
      chain[i] in heap && chain[i] in heap' && heap'[chain[i]] == heap[chain[i]]
    ensures Linked(heap', head, tail, chain) && Values(heap', chain) == Values(heap, chain)
  {
    forall i: nat | i + 1 < |chain| ensures LinkAt(heap', chain, i) {
      assert LinkAt(heap, chain, i);
    }
  }

  lemma {:induction false} LinkedLonger(heap: map<Addr, Node>, head: Addr, tail: Addr, chain: seq<Addr>, n: Addr)
    requires Linked(heap, head, tail, chain) && n in heap && n != 0 && n !in chain
    requires HasData(heap, tail) && heap[tail].next == n
    ensures Linked(heap, head, n, chain + [n])
    ensures Values(heap, chain + [n]) == Values(heap, chain) + [heap[tail].data.value]
  {
    forall i: nat | i + 1 < |chain + [n]| ensures LinkAt(heap, chain + [n], i) {
      assert i + 1 < |chain| ==> LinkAt(heap, chain, i);
    }
  }

  lemma {:induction false} LinkedShorter(heap: map<Addr, Node>, head: Addr, tail: Addr, chain: seq<Addr>)
    requires Linked(heap, head, tail, chain) && head != tail
    ensures chain != [] && head != 0 && HasData(heap, head)
    ensures Linked(heap, heap[head].next, tail, chain[1..]) && head !in chain[1..] && head in chain
    ensures Values(heap, chain) == [heap[head].data.value] + Values(heap, chain[1..])
  {
    assert LinkAt(heap, chain, 0);
    forall i: nat | i + 1 < |chain[1..]| ensures LinkAt(heap, chain[1..], i) {
      assert LinkAt(heap, chain, i + 1);
    }
  }

  // ---------- each step ----------

  lemma {:induction false} LoggedParts(s: State, event: Event)
    requires WholeOk(s)
    ensures forall i :: 0 <= i < |s.completed| ==> CompletedOk(s.log + [event], s.completed[i])
    ensures Replay(Queue, s.log + [event]) == Apply(Queue, Values(s.heap, s.chain), event)
  {
    hide CompletedOk, Linked, Values, Replay;
    ReplayAppend(Queue, s.log, event);
    forall i | 0 <= i < |s.completed| ensures CompletedOk(s.log + [event], s.completed[i]) {
      CompletedKept(s.log, event, s.completed[i]);
    }
  }

  /** A call goes on, before or after it has taken effect. */
  lemma {:induction false} CallGoesOn(
    heap: map<Addr, Node>, log: seq<Event>, heap': map<Addr, Node>, t: nat, pc: Pc, pc': Pc, call: Call)
    requires CallOk(heap, log, t, pc, call) && !pc.Idle? && !pc'.Idle? && HasEffect(pc') == HasEffect(pc)
    requires forall op :: Fits(pc, op) ==> Fits(pc', op)
    requires HasEffect(pc) ==> Report(heap', t, pc') == Report(heap, t, pc)
    ensures CallOk(heap', log, t, pc', call)
  {
  }

  lemma {:induction false} CallTakesEffect(
    heap: map<Addr, Node>, log: seq<Event>, t: nat, pc: Pc, pc': Pc, call: Call, event: Event)
    requires CallOk(heap, log, t, pc, call) && !pc.Idle? && !HasEffect(pc) && HasEffect(pc') && !pc'.Idle?
    requires event == Report(heap, t, pc') && event.thread == t
    requires forall op :: Fits(pc, op) ==> Fits(pc', op)
    ensures CallOk(heap, log + [event], t, pc', Effective(Asked(call), Since(call), |log|))
  {
    assert Fits(pc', Asked(call));
    assert Answers(Asked(call), event);
    TakesEffect(log, event, call, Report(heap, t, pc));
  }

  /** The mover's own part when the step changes neither the nodes nor the log. */
  lemma {:induction false} QuietStep(s: State, s': State, t: nat)
    requires Ready(s, t) && |s'.threads| == |s.threads| && |s'.calls| == |s.calls|
    requires s' == Goto(s, t, s'.threads[t]).(
      headLock := s'.headLock, tailLock := s'.tailLock, calls := s.calls[t := s'.calls[t]], completed := s'.completed)
    requires ThreadInv(s', t, s'.threads[t], s'.calls[t]) && EndsFree(s, t, s'.threads[t])
    requires Owns(s'.threads[t]) == Owns(s.threads[t]) || Owns(s'.threads[t]) == 0
    requires s'.headLock == s.headLock || (s.headLock in {None, Some(t)} && s'.headLock in {None, Some(t)})
    requires s'.tailLock == s.tailLock || (s.tailLock in {None, Some(t)} && s'.tailLock in {None, Some(t)})
    requires forall i :: 0 <= i < |s'.completed| ==> CompletedOk(s'.log, s'.completed[i])
    ensures StepOk(s, s', t)
  {
    assert s.tail in s.chain && 0 !in s.chain;
    hide ThreadOk, CallOk, Linked, Replay, Values, CompletedOk, HasEffect, AtTail, AtHead;
    OwnedOutside(s, t);
    OthersKept(s, s', t, Owns(s.threads[t]), FoundEmpty(t));
  }

  lemma {:induction false} OwnedOutside(s: State, t: nat)
    requires Ready(s, t)
    ensures Owns(s.threads[t]) !in s.chain
  {
    hide CallOk, Replay, Values, CompletedOk;
  }

  lemma {:induction false} BeginStep(s: State, t: nat, pc: Pc, op: Operation)
    requires Ready(s, t) && s.threads[t].Idle? && (pc.PushNew? || pc.PopLock?)
    requires s.mode.LockFree? ==> t == if pc.PushNew? then 0 else 1
    requires Fits(pc, op)
    ensures StepOk(s, Begin(s, t, pc, op), t)
  {
    var s' := Begin(s, t, pc, op);
    hide Linked, Replay, Values, CompletedOk;
    QuietStep(s, s', t);
  }

  lemma {:induction false} ReturnStep(s: State, t: nat, event: Event)
    requires Ready(s, t) && (s.threads[t].PushDone? || s.threads[t].PopDone? || s.threads[t].EmptyDone?)
    requires event == Report(s.heap, t, s.threads[t])
    ensures StepOk(s, Return(s, t, event), t)
  {
    var s' := Return(s, t, event);
    assert CompletedOk(s.log, s'.completed[|s.completed|]);
    assert forall i :: 0 <= i < |s.completed| ==> s'.completed[i] == s.completed[i];
    hide Linked, Replay, Values, CompletedOk;
    QuietStep(s, s', t);
  }

  /** Without mutexes nobody else is at the end a thread comes to. */
  lemma {:induction false} EndIsFree(s: State, t: nat)
    requires Ready(s, t) && s.mode.LockFree?
    ensures s.threads[t].PushLock? ==> s.tailLock == None
    ensures s.threads[t].PopLock? ==> s.headLock == None
  {
    hide ThreadOk, CallOk, Linked, Replay, Values, CompletedOk;
    var u := if s.tailLock.Some? then s.tailLock.value else t;
    var v := if s.headLock.Some? then s.headLock.value else t;
    assert u != t ==> OtherOk(s, s.threads[t], u, s.threads[u], s.calls[u]);
    assert v != t ==> OtherOk(s, s.threads[t], v, s.threads[v], s.calls[v]);
  }

  /** Steps of a push that take or release the mutex or read the tail. */
  lemma {:induction false} PushQuietStep(s: State, t: nat)
    requires Ready(s, t) && (s.threads[t].PushLock? || s.threads[t].PushLoad? || s.threads[t].PushUnlock?)
    requires s.threads[t].PushLock? ==> s.tailLock == None
    ensures StepOk(s, PushStep(s, t, 0), t)
  {
    hide CallOk, Linked, Replay, Values, CompletedOk;
    var s', pc := PushStep(s, t, 0), s.threads[t];
    CallGoesOn(s.heap, s.log, s.heap, t, pc, s'.threads[t], s.calls[t]);
    QuietStep(s, s', t);
  }

  /** Steps of a pop that take or release the mutex, test a queue that is not empty, or read. */
  lemma {:induction false} PopQuietStep(s: State, t: nat)
    requires Ready(s, t)
    requires
      || (s.threads[t].PopLock? && s.headLock == None)
      || (s.threads[t].PopTest? && s.head != s.tail) || (s.threads[t].PopTest? && s.threads[t].kind.waits)
      || s.threads[t].PopUnlock? || s.threads[t].EmptyUnlock?
    ensures PopStep(s, t) == s || StepOk(s, PopStep(s, t), t)
  {
    hide CallOk, Linked, Replay, Values, CompletedOk;
    var s', pc := PopStep(s, t), s.threads[t];
    if s' != s {
      CallGoesOn(s.heap, s.log, s.heap, t, pc, s'.threads[t], s.calls[t]);
      QuietStep(s, s', t);
    }
  }

  lemma {:induction false} PopReadStep(s: State, t: nat)
    requires Ready(s, t) && s.threads[t].PopRead?
    ensures StepOk(s, PopStep(s, t), t)
  {
    hide CallOk, Linked, Replay, Values, CompletedOk;
    var s', pc := PopStep(s, t), s.threads[t];
    LinkedShorter(s.heap, s.head, s.tail, s.chain);
    CallGoesOn(s.heap, s.log, s.heap, t, pc, s'.threads[t], s.calls[t]);
    QuietStep(s, s', t);
  }

  lemma {:induction false} PopTakeStep(s: State, t: nat)
    requires Ready(s, t) && s.threads[t].PopTake?
    ensures StepOk(s, PopStep(s, t), t)
  {
    hide CallOk, Linked, Replay, Values, CompletedOk;
    var s', pc := PopStep(s, t), s.threads[t];
    CallGoesOn(s.heap, s.log, s.heap, t, pc, s'.threads[t], s.calls[t]);
    QuietStep(s, s', t);
  }

  lemma {:induction false} EmptyQueue(heap: map<Addr, Node>, head: Addr, tail: Addr, chain: seq<Addr>)
    requires Linked(heap, head, tail, chain) && head == tail
    ensures Values(heap, chain) == []
  {
    assert |chain| == 1;
  }

  lemma {:induction false} LocalWhenSame(s: State, s': State, mover: Pc, mover': Pc)
    requires Linked(s.heap, s.head, s.tail, s.chain) && Owns(mover) == Owns(mover') == 0
    requires s'.mode == s.mode && s'.heap == s.heap && s'.head == s.head && s'.tail == s.tail && s'.chain == s.chain
    ensures Local(s, s', mover, mover', 0)
  {
    assert s.tail in s.chain && s.head in s.chain;
  }

  lemma {:induction false} FoundEmptyStep(s: State, t: nat)
    requires Ready(s, t) && s.threads[t].PopTest? && !s.threads[t].kind.waits && s.head == s.tail
    ensures StepOk(s, PopStep(s, t), t)
  {
    hide Local, CallOk, Linked, Replay, Values, CompletedOk;
    var s', pc, event := PopStep(s, t), s.threads[t], FoundEmpty(t);
    EmptyQueue(s.heap, s.head, s.tail, s.chain);
    LocalWhenSame(s, s', pc, s'.threads[t]);
    LoggedParts(s, event);
    CallTakesEffect(s.heap, s.log, t, pc, s'.threads[t], s.calls[t], event);
    OthersKept(s, s', t, 0, event);
  }

  lemma {:induction false} AllocateLocal(s: State, t: nat, slot: Addr)
    requires t < |s.threads| && t < |s.calls| && s.threads[t].PushNew? && Linked(s.heap, s.head, s.tail, s.chain)
    requires slot != 0 && slot !in s.heap
    ensures var s' := PushStep(s, t, slot);
      && Local(s, s', s.threads[t], s'.threads[t], slot) && slot !in s.chain
      && Linked(s'.heap, s.head, s.tail, s.chain) && Values(s'.heap, s.chain) == Values(s.heap, s.chain)
  {
    hide LinkAt, Values;
    assert s.tail in s.chain && slot !in s.chain;
    LinkedKept(s.heap, PushStep(s, t, slot).heap, s.head, s.tail, s.chain);
  }

  lemma {:induction false} AllocateStep(s: State, t: nat, slot: Addr)
    requires Ready(s, t) && s.threads[t].PushNew? && slot != 0 && slot !in s.heap
    ensures StepOk(s, PushStep(s, t, slot), t)
  {
    hide Local, CallOk, Linked, Replay, Values, CompletedOk;
    var s', pc := PushStep(s, t, slot), s.threads[t];
    AllocateLocal(s, t, slot);
    CallGoesOn(s.heap, s.log, s'.heap, t, pc, s'.threads[t], s.calls[t]);
    OthersKept(s, s', t, slot, FoundEmpty(t));
  }

  /** The dummy node gets its value, and its successor. */
  lemma {:induction false} FillLocal(s: State, t: nat)
    requires t < |s.threads| && t < |s.calls| && (s.threads[t].PushData? || s.threads[t].PushNext?)
    requires Linked(s.heap, s.head, s.tail, s.chain) && ThreadOk(s.heap, s.head, s.tail, s.chain, s.threads[t])
    ensures var s' := PushStep(s, t, 0);
      && Local(s, s', s.threads[t], s'.threads[t], s.tail) && s.tail in s.chain
      && Linked(s'.heap, s.head, s.tail, s.chain) && Values(s'.heap, s.chain) == Values(s.heap, s.chain)
  {
    hide LinkAt, Values;
    assert s.tail in s.chain && s.tail in s.heap;
    LinkedKept(s.heap, PushStep(s, t, 0).heap, s.head, s.tail, s.chain);
  }

  lemma {:induction false} FillStep(s: State, t: nat)
    requires Ready(s, t) && (s.threads[t].PushData? || s.threads[t].PushNext?)
    ensures StepOk(s, PushStep(s, t, 0), t)
  {
    hide Local, CallOk, Linked, Replay, Values, CompletedOk;
    var s', pc := PushStep(s, t, 0), s.threads[t];
    TailLinked(s.heap, s.head, s.tail, s.chain);
    FillLocal(s, t);
    CallGoesOn(s.heap, s.log, s'.heap, t, pc, s'.threads[t], s.calls[t]);
    OthersKept(s, s', t, s.tail, FoundEmpty(t));
  }

  lemma {:induction false} TailLinked(heap: map<Addr, Node>, head: Addr, tail: Addr, chain: seq<Addr>)
    requires Linked(heap, head, tail, chain)
    ensures tail in heap && tail in chain
  {
    assert chain[|chain| - 1] in chain;
  }

  lemma {:induction false} AppendLocal(s: State, t: nat)
    requires t < |s.threads| && t < |s.calls| && s.threads[t].PushTail? && Linked(s.heap, s.head, s.tail, s.chain)
    requires ThreadOk(s.heap, s.head, s.tail, s.chain, s.threads[t])
    ensures Local(s, PushStep(s, t, 0), s.threads[t], PushUnlock(s.threads[t].value), s.threads[t].node)
  {
    assert s.tail in s.chain && s.head in s.chain;
    hide LinkAt, Values, Replay;
  }

  lemma {:induction false} AppendStep(s: State, t: nat)
    requires Ready(s, t) && s.threads[t].PushTail?
    ensures StepOk(s, PushStep(s, t, 0), t)
  {
    hide Local, CallOk, Linked, Replay, Values, CompletedOk;
    var s', pc := PushStep(s, t, 0), s.threads[t];
    var event := Pushed(t, s.heap[pc.last].data.value);
    AppendLocal(s, t);
    LoggedParts(s, event);
    LinkedLonger(s.heap, s.head, s.tail, s.chain, pc.node);
    CallTakesEffect(s.heap, s.log, t, pc, s'.threads[t], s.calls[t], event);
    OthersKept(s, s', t, pc.node, event);
  }

  lemma {:induction false} UnlinkLocal(s: State, t: nat)
    requires t < |s.threads| && t < |s.calls| && s.threads[t].PopHead? && Linked(s.heap, s.head, s.tail, s.chain)
    requires ThreadOk(s.heap, s.head, s.tail, s.chain, s.threads[t])
    ensures HasData(s.heap, s.head) && Local(s, PopStep(s, t), s.threads[t], PopStep(s, t).threads[t], 0)
  {
    hide LinkAt, Values, Replay;
    LinkedShorter(s.heap, s.head, s.tail, s.chain);
    TailLinked(s.heap, s.head, s.tail, s.chain);
    assert forall x :: x in s.chain[1..] ==> x in s.chain;
  }

  lemma {:induction false} UnlinkStep(s: State, t: nat)
    requires Ready(s, t) && s.threads[t].PopHead?
    ensures StepOk(s, PopStep(s, t), t)
  {
    hide Local, CallOk, Linked, Replay, Values, CompletedOk;
    var s', pc := PopStep(s, t), s.threads[t];
    UnlinkLocal(s, t);
    LinkedShorter(s.heap, s.head, s.tail, s.chain);
    var event := Popped(t, s.heap[pc.first].data.value);
    LoggedParts(s, event);
    CallTakesEffect(s.heap, s.log, t, pc, s'.threads[t], s.calls[t], event);
    OthersKept(s, s', t, 0, event);
  }

  lemma {:induction false} DeleteLocal(s: State, t: nat)
    requires t < |s.threads| && t < |s.calls| && s.threads[t].PopDelete? && Linked(s.heap, s.head, s.tail, s.chain)
    requires ThreadOk(s.heap, s.head, s.tail, s.chain, s.threads[t])
    ensures var s' := PopStep(s, t);
      && Local(s, s', s.threads[t], s'.threads[t], s.threads[t].first)
      && Linked(s'.heap, s.head, s.tail, s.chain) && Values(s'.heap, s.chain) == Values(s.heap, s.chain)
  {
    hide LinkAt, Values;
    TailLinked(s.heap, s.head, s.tail, s.chain);
    LinkedKept(s.heap, PopStep(s, t).heap, s.head, s.tail, s.chain);
  }

  lemma {:induction false} DeleteStep(s: State, t: nat)
    requires Ready(s, t) && s.threads[t].PopDelete?
    ensures StepOk(s, PopStep(s, t), t)
  {
    hide Local, CallOk, Linked, Replay, Values, CompletedOk;
    var s', pc := PopStep(s, t), s.threads[t];
    DeleteLocal(s, t);
    CallGoesOn(s.heap, s.log, s'.heap, t, pc, s'.threads[t], s.calls[t]);
    OthersKept(s, s', t, pc.first, FoundEmpty(t));
  }

  // ---------- every run ----------

  lemma {:induction false} PushKeepsInv(s: State, t: nat, slot: Addr)
    requires Inv(s) && Ready(s, t) && Pushes(s.threads[t])
    ensures Inv(PushStep(s, t, slot))
  {
    var s' := PushStep(s, t, slot);
    EndIsFreeIfLockFree(s, t);
    hide Inv, StepOk, Ready, Report;
    assert t < |s.threads| && t < |s.calls|;
    match s.threads[t]
    case PushNew(_) =>
      if slot != 0 && slot !in s.heap {
        AllocateStep(s, t, slot);
        Finish(s, s', t);
      }
    case PushLock(_, _) =>
      if s.tailLock == None {
        PushQuietStep(s, t);
        Finish(s, s', t);
      }
    case PushLoad(_, _) => PushQuietStep(s, t); Finish(s, s', t);
    case PushData(_, _, _) => FillStep(s, t); Finish(s, s', t);
    case PushNext(_, _, _) => FillStep(s, t); Finish(s, s', t);
    case PushTail(_, _, _) => AppendStep(s, t); Finish(s, s', t);
    case PushUnlock(_) => PushQuietStep(s, t); Finish(s, s', t);
    case PushDone(v) => ReportOfDone(s.heap, t, s.threads[t]); ReturnStep(s, t, Pushed(t, v)); Finish(s, s', t);
  }

  lemma {:induction false} ReportOfDone(heap: map<Addr, Node>, t: nat, pc: Pc)
    ensures pc.PushDone? ==> Report(heap, t, pc) == Pushed(t, pc.value)
    ensures pc.PopDone? ==> Report(heap, t, pc) == Popped(t, pc.value)
    ensures pc.EmptyDone? ==> Report(heap, t, pc) == FoundEmpty(t)
  {
  }

  lemma {:induction false} EndIsFreeIfLockFree(s: State, t: nat)
    requires Ready(s, t)
    ensures s.mode.LockFree? && s.threads[t].PushLock? ==> s.tailLock == None
    ensures s.mode.LockFree? && s.threads[t].PopLock? ==> s.headLock == None
  {
    hide Ready;
    if s.mode.LockFree? {
      EndIsFree(s, t);
    }
  }

  lemma {:induction false} PopKeepsInv(s: State, t: nat)
    requires Inv(s) && Ready(s, t) && !Pushes(s.threads[t])
    ensures Inv(PopStep(s, t))
  {
    var s' := PopStep(s, t);
    EndIsFreeIfLockFree(s, t);
    hide Inv, StepOk, Ready, Report;
    assert t < |s.threads| && t < |s.calls|;
    match s.threads[t]
    case PopLock(_) =>
      if s.headLock == None {
        PopQuietStep(s, t);
        if s' != s {
          Finish(s, s', t);
        }
      }
    case PopTest(kind) =>
      if s.head != s.tail || kind.waits {
        PopQuietStep(s, t);
        if s' != s {
          Finish(s, s', t);
        }
      } else {
        FoundEmptyStep(s, t);
        Finish(s, s', t);
      }
    case PopRead(_) => PopReadStep(s, t); Finish(s, s', t);
    case PopHead(_, _) => UnlinkStep(s, t); Finish(s, s', t);
    case PopUnlock(_, _) => PopQuietStep(s, t); if s' != s { Finish(s, s', t); }
    case PopTake(_, _) => PopTakeStep(s, t); Finish(s, s', t);
    case PopDelete(_, _) => DeleteStep(s, t); Finish(s, s', t);
    case PopDone(v) => ReportOfDone(s.heap, t, s.threads[t]); ReturnStep(s, t, Popped(t, v)); Finish(s, s', t);
    case EmptyUnlock => PopQuietStep(s, t); if s' != s { Finish(s, s', t); }
    case EmptyDone => ReportOfDone(s.heap, t, s.threads[t]); ReturnStep(s, t, FoundEmpty(t)); Finish(s, s', t);
    case Idle =>
  }

  lemma {:induction false} NextKeepsInv(s: State, step: Step)
    requires Inv(s)
    ensures Inv(Next(s, step))
  {
    var t := step.thread;
    if t < |s.threads| && t < |s.calls| && Next(s, step) != s {
      InvGivesReady(s, t);
      hide Inv, Ready, StepOk, PushStep, PopStep;
      match step
      case CallPush(_, value) => BeginStep(s, t, PushNew(value), Push(value)); Finish(s, Next(s, step), t);
      case CallPop(_, kind) => BeginStep(s, t, PopLock(kind), Pop(kind.waits)); Finish(s, Next(s, step), t);
      case Run(_, slot) =>
        if Pushes(s.threads[t]) {
          PushKeepsInv(s, t, slot);
        } else {
          PopKeepsInv(s, t);
        }
    }
  }

  lemma {:induction false} InitOk(mode: Mode, n: nat)
    ensures Inv(Init(mode, n))
  {
  }

  /** The node that a consumer deletes is not the dummy node, in particular not the one that a producer
      holds as the tail, and no other thread has anything to do with it. */
  lemma {:induction false} DeletedIsUnused(s: State, t: nat, u: nat)
    requires Inv(s) && t < |s.threads| && s.threads[t].PopDelete? && u < |s.threads| && u != t
    ensures var n := s.threads[t].first;
      && n in s.heap && n !in s.chain && n != s.tail && n != s.head && Owns(s.threads[u]) != n
      && (s.threads[u].PushData? || s.threads[u].PushNext? || s.threads[u].PushTail? ==> s.threads[u].last != n)
      && (s.threads[u].PopRead? || s.threads[u].PopHead? ==> s.threads[u].first != n)
  {
    assert ThreadInv(s, t, s.threads[t], s.calls[t]) && ThreadInv(s, u, s.threads[u], s.calls[u]);
    assert Apart(s.threads[t], s.threads[u]);
    assert s.tail in s.chain && s.head in s.chain;
  }

  // ---------- progress ----------

  /** The thread waits for a mutex that somebody holds. */
  predicate Blocked(s: State, t: nat)
    requires t < |s.threads|
  {
    s.mode.TwoLocks? &&
    match s.threads[t]
    case PushLock(_, _) => s.tailLock.Some?
    case PopLock(_) => s.headLock.Some?
    case PopTest(kind) => kind.waits && s.tailLock.Some?
    case _ => false
  }

  /** As long as a call is under way, some thread in a call is not waiting for a held mutex. */
  lemma {:induction false} NoDeadlock(s: State, busy: nat) returns (t: nat)
    requires Inv(s) && busy < |s.threads| && !s.threads[busy].Idle?
    ensures t < |s.threads| && !s.threads[t].Idle? && !Blocked(s, t)
  {
    t := if s.tailLock.Some? then s.tailLock.value else if s.headLock.Some? then s.headLock.value else busy;
    assert ThreadInv(s, t, s.threads[t], s.calls[t]);
    hide ThreadOk, CallOk, Linked, Replay, Values, CompletedOk;
  }

  /** The number of its own steps that bring a call to its end, at most. */
  function StepsLeft(pc: Pc): nat {
    match pc
    case PushNew(_) => 8
    case PushLock(_, _) => 7
    case PushLoad(_, _) => 6
    case PushData(_, _, _) => 5
    case PushNext(_, _, _) => 4
    case PushTail(_, _, _) => 3
    case PushUnlock(_) => 2
    case PushDone(_) => 1
    case PopLock(_) => 8
    case PopTest(_) => 7
    case PopRead(_) => 6
    case PopHead(_, _) => 5
    case PopUnlock(_, _) => 4
    case PopTake(_, _) => 3
    case PopDelete(_, _) => 2
    case PopDone(_) => 1
    case EmptyUnlock => 2
    case EmptyDone => 1
    case Idle => 0
  }

  /** A call that waits for a value looks for one. */
  predicate Awaits(pc: Pc) {
    pc.PopTest? && pc.kind.waits
  }

  /** A thread that does not wait for a held mutex comes closer to the end of its call, unless that is to
      wait for a value and there is none; without mutexes none ever waits for one. */
  lemma {:induction false} UnblockedAdvances(s: State, t: nat, slot: Addr)
    requires Inv(s) && t < |s.threads| == |Next(s, Run(t, slot)).threads| && !s.threads[t].Idle? && !Blocked(s, t)
    requires slot != 0 && slot !in s.heap
    ensures var pc, pc' := s.threads[t], Next(s, Run(t, slot)).threads[t];
      if Awaits(pc) && s.head == s.tail then pc' == PopLock(pc.kind) else StepsLeft(pc') < StepsLeft(pc)
    ensures s.mode.LockFree? ==> forall u :: 0 <= u < |s.threads| ==> !Blocked(s, u)
  {
    hide Inv, Ready, PushStep, PopStep;
    NextKeepsInv(s, Run(t, slot));
    InvGivesWhole(s, t);
    InvGivesWhole(Next(s, Run(t, slot)), t);
    if Pushes(s.threads[t]) {
      UnblockedPushAdvances(s, t, slot);
    } else {
      UnblockedPopAdvances(s, t);
    }
  }

  lemma {:induction false} InvGivesWhole(s: State, t: nat)
    requires Inv(s) && t < |s.threads|
    ensures t < |s.calls| && !s.fault
  {
    hide ThreadInv, Apart, Linked, Replay, Values;
  }

  lemma {:induction false} UnblockedPushAdvances(s: State, t: nat, slot: Addr)
    requires t < |s.threads| && t < |s.calls| && Pushes(s.threads[t]) && !Blocked(s, t)
    requires slot != 0 && slot !in s.heap && !PushStep(s, t, slot).fault
    ensures |PushStep(s, t, slot).threads| == |s.threads|
    ensures StepsLeft(PushStep(s, t, slot).threads[t]) < StepsLeft(s.threads[t])
  {
    hide HasData, Since, Asked;
  }

  lemma {:induction false} UnblockedPopAdvances(s: State, t: nat)
    requires t < |s.threads| && t < |s.calls| && !Pushes(s.threads[t]) && !s.threads[t].Idle? && !Blocked(s, t)
    requires !PopStep(s, t).fault
    ensures |PopStep(s, t).threads| == |s.threads|
    ensures var pc, pc' := s.threads[t], PopStep(s, t).threads[t];
      if Awaits(pc) && s.head == s.tail then pc' == PopLock(pc.kind) else StepsLeft(pc') < StepsLeft(pc)
  {
    hide Test, Unlink, HasData, StepsLeft, Return;
    if s.threads[t].PopTest? {
      UnblockedTestAdvances(s, t);
    } else if s.threads[t].PopHead? {
      UnlinkAdvances(s, t);
    } else {
      OtherPopAdvances(s, t);
    }
  }

  lemma {:induction false} OtherPopAdvances(s: State, t: nat)
    requires t < |s.threads| && t < |s.calls| && !Pushes(s.threads[t]) && !s.threads[t].Idle? && !Blocked(s, t)
    requires !PopStep(s, t).fault && !s.threads[t].PopTest? && !s.threads[t].PopHead?
    ensures |PopStep(s, t).threads| == |s.threads|
    ensures StepsLeft(PopStep(s, t).threads[t]) < StepsLeft(s.threads[t])
  {
    hide Test, Unlink, HasData, Return;
    if s.threads[t].PopDone? {
      ReturnsToIdle(s, t, Popped(t, s.threads[t].value));
    } else if s.threads[t].EmptyDone? {
      ReturnsToIdle(s, t, FoundEmpty(t));
    }
  }

  lemma {:induction false} ReturnsToIdle(s: State, t: nat, event: Event)
    requires t < |s.threads| && t < |s.calls|
    ensures |Return(s, t, event).threads| == |s.threads| && Return(s, t, event).threads[t].Idle?
  {
  }

  lemma {:induction false} UnblockedTestAdvances(s: State, t: nat)
    requires t < |s.threads| && t < |s.calls| && s.threads[t].PopTest? && !Blocked(s, t)
    ensures var pc, s' := s.threads[t], Test(s, t, s.threads[t].kind);
      && |s'.threads| == |s.threads|
      && if Awaits(pc) && s.head == s.tail then s'.threads[t] == PopLock(pc.kind)
         else StepsLeft(s'.threads[t]) < StepsLeft(pc)
  {
  }

  lemma {:induction false} UnlinkAdvances(s: State, t: nat)
    requires t < |s.threads| && t < |s.calls| && s.threads[t].PopHead?
    requires !Unlink(s, t, s.threads[t].first, s.threads[t].taken).fault
    ensures var s' := Unlink(s, t, s.threads[t].first, s.threads[t].taken);
      |s'.threads| == |s.threads| && StepsLeft(s'.threads[t]) < StepsLeft(s.threads[t])
  {
    hide HasData;
  }

  /** A pop that finds the queue not empty goes on to take its first value, which nobody else can take. */
  lemma {:induction false} FirstIsTaken(s: State, t: nat)
    requires Inv(s) && t < |s.threads| && s.head != s.tail
    ensures var pc, s' := s.threads[t], Next(s, Run(t, 0));
      && (pc.PopTest? && !Blocked(s, t) ==> |s'.threads| == |s.threads| && TakesFirst(s', s'.threads[t]))
      && (pc.PopRead? ==> |s'.threads| == |s.threads| && s'.threads[t].PopHead? && TakesFirst(s', s'.threads[t]))
      && (pc.PopHead? ==> Values(s.heap, s.chain) != [] && s'.log == s.log + [Popped(t, Values(s.heap, s.chain)[0])])
  {
    hide Replay, CompletedOk, CallOk, Apart;
    assert ThreadInv(s, t, s.threads[t], s.calls[t]);
    LinkedShorter(s.heap, s.head, s.tail, s.chain);
    hide LinkAt;
  }

  predicate TakesFirst(s: State, pc: Pc) {
    (pc.PopRead? || pc.PopHead?) && pc.first == s.head
  }

  // ---------- no node leaks ----------

  /** Every node is in the queue or in the hands of one thread, and the dummy node has a successor
      only while a push is about to move the tail. */
  ghost predicate Tidy(s: State) {
    && (forall a :: a in s.heap && a !in s.chain ==> exists t :: 0 <= t < |s.threads| && Owns(s.threads[t]) == a)
    && s.tail in s.heap && 0 !in s.heap
    && (s.heap[s.tail].next == 0 || exists t :: 0 <= t < |s.threads| && s.threads[t].PushTail?)
  }

  /** What the mover lets go of is in the queue or gone. */
  predicate LetsGo(s: State, s': State, t: nat)
    requires t < |s.threads| == |s'.threads|
  {
    && (forall a :: a in s'.heap && a !in s'.chain && a != Owns(s'.threads[t]) ==>
          a in s.heap && a !in s.chain && a != Owns(s.threads[t]))
    && s.tail in s.heap && s'.tail in s'.heap && (0 in s'.heap ==> 0 in s.heap)
    && (s'.threads[t].PushTail? || s'.heap[s'.tail].next == 0 ||
         (s'.tail == s.tail && s'.heap[s.tail].next == s.heap[s.tail].next && !s.threads[t].PushTail?))
  }

  lemma {:induction false} TidyKept(s: State, s': State, t: nat)
    requires Tidy(s) && MovedOnly(s, s', t) && LetsGo(s, s', t)
    ensures Tidy(s')
  {
    forall a | a in s'.heap && a !in s'.chain ensures exists u :: 0 <= u < |s'.threads| && Owns(s'.threads[u]) == a {
      if a == Owns(s'.threads[t]) {
        assert 0 <= t < |s'.threads|;
      } else {
        var u :| 0 <= u < |s.threads| && Owns(s.threads[u]) == a;
        assert s'.threads[u] == s.threads[u];
      }
    }
    if !s'.threads[t].PushTail? && s'.heap[s'.tail].next != 0 {
      var u :| 0 <= u < |s.threads| && s.threads[u].PushTail?;
      assert s'.threads[u] == s.threads[u];
    }
  }

  lemma {:induction false} PushLetsGo(s: State, t: nat, slot: Addr)
    requires t < |s.threads| == |s.calls| && Pushes(s.threads[t]) && s.tail in s.heap && s.tail in s.chain
    requires ThreadOk(s.heap, s.head, s.tail, s.chain, s.threads[t]) && !s.threads[t].PushTail? && 0 !in s.heap
    requires PushStep(s, t, slot) != s
    ensures LetsGo(s, PushStep(s, t, slot), t)
  {
  }

  lemma {:induction false} AppendLetsGo(s: State, t: nat)
    requires t < |s.threads| == |s.calls| && s.threads[t].PushTail? && s.tail in s.heap && s.tail in s.chain
    requires ThreadOk(s.heap, s.head, s.tail, s.chain, s.threads[t])
    ensures LetsGo(s, PushStep(s, t, 0), t)
  {
    var n := s.threads[t].node;
    assert forall a :: a in s.chain + [n] <==> a in s.chain || a == n;
  }

  /** The nodes stay, and so does what thread `t` owns of them. */
  predicate LeavesNodes(s: State, s': State, t: nat) {
    && t < |s.threads| == |s'.threads| && s'.heap == s.heap && s'.chain == s.chain && s'.tail == s.tail
    && Owns(s'.threads[t]) == Owns(s.threads[t]) && !s'.threads[t].PushTail?
  }

  lemma {:induction false} TestLeavesNodes(s: State, t: nat)
    requires t < |s.threads| == |s.calls| && s.threads[t].PopTest?
    ensures LeavesNodes(s, Test(s, t, s.threads[t].kind), t)
  {
  }

  lemma {:induction false} ReturnLeavesNodes(s: State, t: nat, event: Event)
    requires t < |s.threads| == |s.calls| && (s.threads[t].PopDone? || s.threads[t].EmptyDone?)
    ensures LeavesNodes(s, Return(s, t, event), t)
  {
  }

  lemma {:induction false} PopLeavesNodes(s: State, t: nat)
    requires t < |s.threads| == |s.calls| && !Pushes(s.threads[t]) && !s.threads[t].PopHead? && !s.threads[t].PopDelete?
    ensures LeavesNodes(s, PopStep(s, t), t)
  {
    hide Unlink, Test, Return, HasData;
    match s.threads[t]
    case PopTest(_) => TestLeavesNodes(s, t);
    case PopDone(v) => ReturnLeavesNodes(s, t, Popped(t, v));
    case EmptyDone => ReturnLeavesNodes(s, t, FoundEmpty(t));
    case _ =>
  }

  lemma {:induction false} PopLetsGo(s: State, t: nat)
    requires t < |s.threads| == |s.calls| && !Pushes(s.threads[t]) && s.tail in s.heap
    requires !s.threads[t].PopHead? && !s.threads[t].PopDelete?
    ensures LetsGo(s, PopStep(s, t), t)
  {
    hide PopStep, Owns;
    PopLeavesNodes(s, t);
  }

  lemma {:induction false} DeleteLetsGo(s: State, t: nat)
    requires t < |s.threads| == |s.calls| && s.threads[t].PopDelete? && s.tail in s.heap && s.tail in s.chain
    requires ThreadOk(s.heap, s.head, s.tail, s.chain, s.threads[t])
    ensures LetsGo(s, PopStep(s, t), t)
  {
  }

  lemma {:induction false} UnlinkLetsGo(s: State, t: nat)
    requires t < |s.threads| == |s.calls| && s.threads[t].PopHead?
    requires s.tail in s.heap && s.tail in s.chain && 0 !in s.heap
    requires ThreadOk(s.heap, s.head, s.tail, s.chain, s.threads[t]) && s.chain[0] == s.head && HasData(s.heap, s.head)
    ensures LetsGo(s, PopStep(s, t), t)
  {
    hide HasData, DataAt, Since;
    assert s.chain == [s.head] + s.chain[1..];
    assert forall a :: a in s.chain ==> a == s.head || a in s.chain[1..];
  }

  lemma {:induction false} NextMoves(s: State, step: Step)
    requires |s.calls| == |s.threads| && step.thread < |s.threads|
    ensures MovedOnly(s, Next(s, step), step.thread)
  {
    var t := step.thread;
    assert s.threads[t := s.threads[t]] == s.threads && s.calls[t := s.calls[t]] == s.calls;
    match step
    case CallPush(_, _) =>
    case CallPop(_, _) =>
    case Run(_, slot) => PushMoves(s, t, slot); PopMoves(s, t); hide PushStep, PopStep;
  }

  lemma {:induction false} ReturnMoves(s: State, t: nat, event: Event)
    requires t < |s.threads| == |s.calls|
    ensures MovedOnly(s, Return(s, t, event), t)
  {
  }

  lemma {:induction false} PushMoves(s: State, t: nat, slot: Addr)
    requires t < |s.threads| == |s.calls|
    ensures MovedOnly(s, PushStep(s, t, slot), t)
  {
    hide HasData, Return;
    if s.threads[t].PushDone? {
      ReturnMoves(s, t, Pushed(t, s.threads[t].value));
    }
    assert s.threads[t := s.threads[t]] == s.threads && s.calls[t := s.calls[t]] == s.calls;
  }

  lemma {:induction false} TestMoves(s: State, t: nat, kind: PopKind)
    requires t < |s.threads| == |s.calls|
    ensures MovedOnly(s, Test(s, t, kind), t)
  {
    assert s.threads[t := s.threads[t]] == s.threads && s.calls[t := s.calls[t]] == s.calls;
  }

  lemma {:induction false} UnlinkMoves(s: State, t: nat, first: Addr, taken: Option<int>)
    requires t < |s.threads| == |s.calls|
    ensures MovedOnly(s, Unlink(s, t, first, taken), t)
  {
    assert s.threads[t := s.threads[t]] == s.threads && s.calls[t := s.calls[t]] == s.calls;
  }

  lemma {:induction false} PopMoves(s: State, t: nat)
    requires t < |s.threads| == |s.calls|
    ensures MovedOnly(s, PopStep(s, t), t)
  {
    hide Test, Unlink, Return, HasData;
    assert s.threads[t := s.threads[t]] == s.threads && s.calls[t := s.calls[t]] == s.calls;
    match s.threads[t]
    case PopTest(kind) => TestMoves(s, t, kind);
    case PopHead(first, taken) => UnlinkMoves(s, t, first, taken);
    case PopDone(v) => ReturnMoves(s, t, Popped(t, v));
    case EmptyDone => ReturnMoves(s, t, FoundEmpty(t));
    case _ =>
  }

  lemma {:induction false} NextKeepsTidy(s: State, step: Step)
    requires Inv(s) && Tidy(s)
    ensures Tidy(Next(s, step))
  {
    var t, s' := step.thread, Next(s, step);
    if t < |s.threads| && s' != s {
      assert ThreadInv(s, t, s.threads[t], s.calls[t]) && s.tail in s.chain;
      assert s.chain[0] == s.head;
      if s.threads[t].PopHead? {
        LinkedShorter(s.heap, s.head, s.tail, s.chain);
      }
      NextMoves(s, step);
      hide Inv, Tidy, LetsGo, PushStep, PopStep, ThreadOk, CallOk, Linked, MovedOnly;
      if !step.Run? {
        BeginLetsGo(s, t, s'.threads[t], s'.calls[t].op);
      } else if s.threads[t].PushTail? {
        SlotUnused(s, t, step.slot);
        AppendLetsGo(s, t);
      } else if s.threads[t].PopHead? {
        UnlinkLetsGo(s, t);
      } else if s.threads[t].PopDelete? {
        DeleteLetsGo(s, t);
      } else if Pushes(s.threads[t]) {
        PushLetsGo(s, t, step.slot);
      } else {
        PopLetsGo(s, t);
      }
      TidyKept(s, s', t);
    }
  }

  lemma {:induction false} SlotUnused(s: State, t: nat, slot: Addr)
    requires t < |s.threads| && t < |s.calls| && s.threads[t].PushTail?
    ensures PushStep(s, t, slot) == PushStep(s, t, 0)
  {
  }

  lemma {:induction false} BeginLetsGo(s: State, t: nat, pc: Pc, op: Operation)
    requires t < |s.threads| == |s.calls| && s.threads[t].Idle? && (pc.PushNew? || pc.PopLock?) && s.tail in s.heap
    ensures LetsGo(s, Begin(s, t, pc, op), t)
  {
  }

  // ---------- the history ----------

  /** How the history goes on when thread `t` takes a step. */
  predicate HistoryMoves(s: State, s': State, t: nat, move: Move) {
    Moves(|s.log|, s.calls, s.completed, |s'.log|, s'.calls, s'.completed, t, move)
  }

  /** Thread `t` has a call that is as far as its program counter says. */
  predicate InStep(s: State, t: nat) {
    t < |s.threads| == |s.calls| && CallOk(s.heap, s.log, t, s.threads[t], s.calls[t])
  }

  lemma {:induction false} EffectHistory(s: State, t: nat, event: Event)
    requires InStep(s, t) && !HasEffect(s.threads[t])
    ensures HistoryMoves(s, Log(s, t, event), t, TakesPlace)
  {
  }

  lemma {:induction false} ReturnHistory(s: State, t: nat, event: Event) returns (move: Move)
    requires InStep(s, t) && !s.threads[t].Idle? && HasEffect(s.threads[t])
    ensures HistoryMoves(s, Return(s, t, event), t, move)
  {
    move := Returns(Completed(Asked(s.calls[t]), event, Since(s.calls[t]), s.calls[t].at, |s.log|));
  }

  lemma {:induction false} BeginHistory(s: State, t: nat, pc: Pc, op: Operation) returns (move: Move)
    requires InStep(s, t)
    ensures HistoryMoves(s, Begin(s, t, pc, op), t, move)
  {
    move := if s.threads[t].Idle? then Begins(op, |s.log|) else Quiet;
  }

  lemma {:induction false} PushHistory(s: State, t: nat, slot: Addr) returns (move: Move)
    requires InStep(s, t)
    ensures HistoryMoves(s, PushStep(s, t, slot), t, move)
  {
    hide CallOk, Return, HasData;
    move := Quiet;
    match s.threads[t]
    case PushTail(_, _, last) =>
      if HasData(s.heap, last) {
        DataThere(s.heap, last);
        EffectHistory(s, t, Pushed(t, s.heap[last].data.value));
        move := TakesPlace;
      }
    case PushDone(v) => move := ReturnHistory(s, t, Pushed(t, v));
    case _ =>
  }

  lemma {:induction false} DataThere(heap: map<Addr, Node>, n: Addr)
    requires HasData(heap, n)
    ensures n in heap && heap[n].data.Some?
  {
  }

  lemma {:induction false} TestHistory(s: State, t: nat, kind: PopKind) returns (move: Move)
    requires InStep(s, t) && !HasEffect(s.threads[t])
    ensures HistoryMoves(s, Test(s, t, kind), t, move)
  {
    hide CallOk;
    move := Quiet;
    if |Test(s, t, kind).log| != |s.log| {
      EffectHistory(s, t, FoundEmpty(t));
      move := TakesPlace;
    }
  }

  lemma {:induction false} UnlinkHistory(s: State, t: nat, first: Addr, taken: Option<int>) returns (move: Move)
    requires InStep(s, t) && !HasEffect(s.threads[t])
    ensures HistoryMoves(s, Unlink(s, t, first, taken), t, move)
  {
    hide CallOk;
    move := Quiet;
    if HasData(s.heap, first) {
      EffectHistory(s, t, Popped(t, s.heap[first].data.value));
      move := TakesPlace;
    }
  }

  lemma {:induction false} PopHistory(s: State, t: nat) returns (move: Move)
    requires InStep(s, t)
    ensures HistoryMoves(s, PopStep(s, t), t, move)
  {
    hide CallOk, Return, Test, Unlink, HasData;
    move := Quiet;
    match s.threads[t]
    case PopTest(kind) => move := TestHistory(s, t, kind);
    case PopHead(first, taken) => move := UnlinkHistory(s, t, first, taken);
    case PopDone(v) => move := ReturnHistory(s, t, Popped(t, v));
    case EmptyDone => move := ReturnHistory(s, t, FoundEmpty(t));
    case _ =>
  }

  lemma {:induction false} NextHistory(s: State, step: Step) returns (move: Move)
    requires InStep(s, step.thread)
    ensures HistoryMoves(s, Next(s, step), step.thread, move)
  {
    hide PushStep, PopStep, Begin, CallOk, HistoryMoves;
    var t := step.thread;
    QuietHistory(s, t);
    move := Quiet;
    match step
    case CallPush(_, value) =>
      if !(s.mode.LockFree? && t != 0) {
        move := BeginHistory(s, t, PushNew(value), Push(value));
      }
    case CallPop(_, kind) =>
      if !(s.mode.LockFree? && t != 1) {
        move := BeginHistory(s, t, PopLock(kind), Pop(kind.waits));
      }
    case Run(_, slot) =>
      if Pushes(s.threads[t]) {
        move := PushHistory(s, t, slot);
      } else {
        move := PopHistory(s, t);
      }
  }

  lemma {:induction false} QuietHistory(s: State, t: nat)
    requires InStep(s, t)
    ensures HistoryMoves(s, s, t, Quiet)
  {
  }

  lemma {:induction false} NoThreadNoStep(s: State, step: Step)
    requires step.thread >= |s.threads|
    ensures Next(s, step) == s
  {
  }

  lemma {:induction false} InvGivesInStep(s: State, t: nat)
    requires Inv(s) && t < |s.threads|
    ensures InStep(s, t)
  {
    hide ThreadOk, Linked, Replay, Values, CallOk, Apart;
    assert ThreadInv(s, t, s.threads[t], s.calls[t]);
  }

  /** Every step keeps effects and calls one to one. */
  lemma {:induction false} NextKeepsOneToOne(s: State, step: Step)
    requires Inv(s) && OneToOne(|s.log|, s.calls, s.completed)
    ensures var s' := Next(s, step); OneToOne(|s'.log|, s'.calls, s'.completed)
  {
    hide Inv, Next, OneToOne, InStep, Moves;
    if step.thread >= |s.threads| {
      NoThreadNoStep(s, step);
    } else {
      InvGivesInStep(s, step.thread);
      var move := NextHistory(s, step);
      var s' := Next(s, step);
      MoveKeepsOneToOne(
        |s.log|, s.calls, s.completed, |s'.log|, s'.calls, s'.completed, step.thread, move);
    }
  }

  /** All that every run keeps. */
  ghost predicate Sound(s: State) {
    Inv(s) && Tidy(s) && OneToOne(|s.log|, s.calls, s.completed)
  }

  lemma {:induction false} NextKeepsSound(s: State, step: Step)
    requires Sound(s)
    ensures Sound(Next(s, step))
  {
    hide Inv, Next, Tidy, OneToOne;
    NextKeepsInv(s, step);
    NextKeepsTidy(s, step);
    NextKeepsOneToOne(s, step);
  }

  lemma {:induction false} InitIsSound(mode: Mode, n: nat)
    ensures Sound(Init(mode, n))
  {
    hide Inv;
    InitOk(mode, n);
  }

  lemma {:induction false} RunIsSound(mode: Mode, n: nat, steps: seq<Step>)
    ensures Sound(RunAll(Init(mode, n), steps))
  {
    hide Sound, Next, Init;
    InitIsSound(mode, n);
    forall s, step | Sound(s) ensures Sound(Next(s, step)) {
      NextKeepsSound(s, step);
    }
    Runs.RunKeeps(Next, Sound, Init(mode, n), steps);
  }

  lemma {:induction false} SoundGivesHistory(s: State)
    requires Sound(s)
    ensures !s.fault && Linked(s.heap, s.head, s.tail, s.chain)
    ensures Replay(Queue, s.log) == Legal(Values(s.heap, s.chain))
    ensures |s.calls| == |s.threads| && OneToOne(|s.log|, s.calls, s.completed)
    ensures forall i :: 0 <= i < |s.completed| ==> CompletedOk(s.log, s.completed[i])
    ensures forall t :: 0 <= t < |s.threads| ==> CallOk(s.heap, s.log, t, s.threads[t], s.calls[t])
  {
    hide OneToOne, Replay, Values, CallOk, CompletedOk, Linked, Tidy;
    forall t | 0 <= t < |s.threads| ensures CallOk(s.heap, s.log, t, s.threads[t], s.calls[t]) {
      assert ThreadInv(s, t, s.threads[t], s.calls[t]);
    }
  }

  /** The log is a run of a first-in first-out queue that ends with the values now linked before the
      dummy node. Every call that has returned took effect between its start and its end, with the
      result it returned, one in progress has taken effect since its start or not at all, and every
      entry of the log is the effect of exactly one of them. No freed node and no missing value is
      touched. */
  lemma {:induction false} Linearizable(mode: Mode, n: nat, steps: seq<Step>)
    ensures var s := RunAll(Init(mode, n), steps);
      && !s.fault && Linked(s.heap, s.head, s.tail, s.chain) && Replay(Queue, s.log) == Legal(Values(s.heap, s.chain))
      && |s.calls| == |s.threads| && OneToOne(|s.log|, s.calls, s.completed)
      && (forall i :: 0 <= i < |s.completed| ==> CompletedOk(s.log, s.completed[i]))
      && (forall t :: 0 <= t < |s.threads| ==> CallOk(s.heap, s.log, t, s.threads[t], s.calls[t]))
  {
    hide RunAll, Init, Sound, OneToOne, Linked, Replay, Values, CallOk, CompletedOk;
    RunIsSound(mode, n, steps);
    SoundGivesHistory(RunAll(Init(mode, n), steps));
  }

  /** So each value is popped at most once and in order: what has been popped, and after it what is
      linked, is what has been pushed. When all calls have returned, the log is what they have told
      their callers. */
  lemma {:induction false} PoppedInOrder(mode: Mode, n: nat, steps: seq<Step>)
    ensures var s := RunAll(Init(mode, n), steps);
      && Linked(s.heap, s.head, s.tail, s.chain) && PushedIn(s.log) == PoppedIn(s.log) + Values(s.heap, s.chain)
      && ((forall t :: 0 <= t < |s.threads| ==> s.threads[t].Idle?) ==>
            multiset(Reports(s.completed)) == multiset(s.log))
  {
    hide RunAll, Init, OneToOne, Linked, Replay, Values, CompletedOk, Reports, PushedIn, PoppedIn;
    Linearizable(mode, n, steps);
    var s := RunAll(Init(mode, n), steps);
    QueueInOrder(s.log);
    if forall t :: 0 <= t < |s.threads| ==> s.threads[t].Idle? {
      ReportsAreLog(s.log, s.calls, s.completed);
    }
  }

  /** Every push reports, and has as its effect, the value it was called with. A pop that waits never
      reports that the queue is empty, and never takes effect so: it returns with a value. */
  lemma {:induction false} CallsAnswered(mode: Mode, n: nat, steps: seq<Step>)
    ensures var s := RunAll(Init(mode, n), steps);
      && (forall i :: 0 <= i < |s.completed| ==> Answered(s.completed[i].op, s.completed[i].event))
      && (forall t :: 0 <= t < |s.calls| && s.calls[t].Effective? ==>
            s.calls[t].at < |s.log| && Answered(s.calls[t].op, s.log[s.calls[t].at]))
  {
    hide RunAll, Init, OneToOne, Linked, Replay, Values;
    Linearizable(mode, n, steps);
    var s := RunAll(Init(mode, n), steps);
    forall i | 0 <= i < |s.completed| ensures Answered(s.completed[i].op, s.completed[i].event) {
      assert CompletedOk(s.log, s.completed[i]);
    }
    forall t | 0 <= t < |s.calls| && s.calls[t].Effective?
      ensures s.calls[t].at < |s.log| && Answered(s.calls[t].op, s.log[s.calls[t].at])
    {
      assert CallOk(s.heap, s.log, t, s.threads[t], s.calls[t]);
    }
  }

  predicate Answered(op: Operation, event: Event) {
    && (op.Push? ==> event == Pushed(event.thread, op.value))
    && (op == Pop(true) ==> event.Popped?)
    && (op == Pop(false) ==> event.Popped? || event.FoundEmpty?)
  }

  /** When no call is under way the nodes are exactly those of the queue. */
  lemma {:induction false} NoLeak(mode: Mode, n: nat, steps: seq<Step>)
    ensures var s := RunAll(Init(mode, n), steps);
      (forall t :: 0 <= t < |s.threads| ==> s.threads[t].Idle?) ==>
        (forall a :: a in s.heap <==> a in s.chain) && s.tail in s.heap && s.heap[s.tail].next == 0
  {
    hide RunAll, Init, Inv, Tidy;
    RunIsSound(mode, n, steps);
    var s := RunAll(Init(mode, n), steps);
    if forall t :: 0 <= t < |s.threads| ==> s.threads[t].Idle? {
      IdleIsClean(s);
    }
  }

  lemma {:induction false} IdleIsClean(s: State)
    requires Sound(s) && forall t :: 0 <= t < |s.threads| ==> s.threads[t].Idle?
    ensures (forall a :: a in s.heap <==> a in s.chain) && s.tail in s.heap && s.heap[s.tail].next == 0
  {
    hide ThreadInv, Replay, Values, CompletedOk;
  }

  // ---------- the object ----------

  /** The steps done in place. */
  class NodeQueue {
    const mode: Mode
    var heap: map<Addr, Node>
    var head: Addr
    var tail: Addr
    var threads: seq<Pc>
    var fault: bool
    var headLock: Option<nat>
    var tailLock: Option<nat>
    ghost var chain: seq<Addr>
    ghost var log: seq<Event>
    ghost var calls: seq<Call>
    ghost var completed: seq<Completed>

    ghost function Current(): State
      reads this
    {
      State(mode, heap, head, tail, threads, fault, headLock, tailLock, chain, log, calls, completed)
    }

    ghost predicate Valid()
      reads this
    {
      Sound(Current())
    }

    constructor (mode: Mode, n: nat)
      ensures Current() == Init(mode, n) && Valid()
    {
      this.mode, heap, head, tail, threads, fault := mode, map[1 := Node(None, 0)], 1, 1, seq(n, _ => Idle), false;
      headLock, tailLock, chain, log, calls, completed := None, None, [1], [], seq(n, _ => NoCall), [];
      new;
      InitIsSound(mode, n);
    }

    method Enter(t: nat, pc: Pc, ghost op: Operation)
      requires t < |threads| && t < |calls|
      modifies this`threads, this`calls
      ensures Current() == Begin(old(Current()), t, pc, op)
    {
      if threads[t].Idle? {
        calls := calls[t := Begun(op, |log|)];
        threads := threads[t := pc];
      }
    }

    /** Thread `t` enters `push`. */
    method StartPush(t: nat, value: int)
      requires Valid()
      modifies this
      ensures Current() == Next(old(Current()), CallPush(t, value)) && Valid()
    {
      hide Sound, Begin;
      SoundGivesLengths(Current());
      NextKeepsSound(Current(), CallPush(t, value));
      if t < |threads| && (mode.TwoLocks? || t == 0) {
        Enter(t, PushNew(value), Push(value));
      }
    }

    /** Thread `t` enters one of the functions that pop. */
    method StartPop(t: nat, kind: PopKind)
      requires Valid()
      modifies this
      ensures Current() == Next(old(Current()), CallPop(t, kind)) && Valid()
    {
      hide Sound, Begin;
      SoundGivesLengths(Current());
      NextKeepsSound(Current(), CallPop(t, kind));
      if t < |threads| && (mode.TwoLocks? || t == 1) {
        Enter(t, PopLock(kind), Pop(kind.waits));
      }
    }

    method Move(t: nat, pc: Pc)
      requires t < |threads|
      modifies this`threads
      ensures Current() == Goto(old(Current()), t, pc)
    {
      threads := threads[t := pc];
    }

    ghost method TakeEffect(t: nat, event: Event)
      requires t < |calls|
      modifies this`log, this`calls
      ensures Current() == Log(old(Current()), t, event)
    {
      calls := calls[t := Effective(Asked(calls[t]), Since(calls[t]), |log|)];
      log := log + [event];
    }

    method Finished(t: nat, ghost event: Event)
      requires t < |threads| && t < |calls|
      modifies this`threads, this`calls, this`completed
      ensures Current() == Return(old(Current()), t, event)
    {
      ghost var at := if calls[t].Effective? then calls[t].at else 0;
      completed := completed + [Completed(Asked(calls[t]), event, Since(calls[t]), at, |log|)];
      calls := calls[t := NoCall];
      threads := threads[t := Idle];
    }

    method Allocate(t: nat, slot: Addr, v: int)
      requires t < |threads| && t < |calls| && threads[t] == PushNew(v)
      modifies this`heap, this`threads
      ensures Current() == PushStep(old(Current()), t, slot)
    {
      if slot != 0 && slot !in heap {
        heap := heap[slot := Node(None, 0)];
        Move(t, PushLock(slot, v));
      }
    }

    /** Puts the value or the link into the dummy node. */
    method Fill(t: nat, last: Addr, node: Node, pc: Pc)
      requires t < |threads|
      modifies this`heap, this`threads
      ensures Current() == Goto(old(Current()).(heap := old(heap)[last := node]), t, pc)
    {
      heap := heap[last := node];
      Move(t, pc);
    }

    method StepFill(t: nat)
      requires t < |threads| && t < |calls| && (threads[t].PushData? || threads[t].PushNext?)
      modifies this`heap, this`threads, this`fault
      ensures Current() == PushStep(old(Current()), t, 0)
    {
      hide Goto, Log, Return, HasData;
      var pc := threads[t];
      if pc.last !in heap {
        fault := true;
      } else if pc.PushData? {
        Fill(t, pc.last, heap[pc.last].(data := Some(pc.value)), PushNext(pc.node, pc.value, pc.last));
      } else {
        Fill(t, pc.last, heap[pc.last].(next := pc.node), PushTail(pc.node, pc.value, pc.last));
      }
    }

    method Append(t: nat, n: Addr, v: int, last: Addr)
      requires t < |threads| && t < |calls| && HasData(heap, last) && threads[t] == PushTail(n, v, last)
      modifies this`log, this`calls, this`tail, this`chain, this`threads
      ensures Current() == PushStep(old(Current()), t, 0)
    {
      TakeEffect(t, Pushed(t, heap[last].data.value));
      tail, chain := n, chain + [n];
      Move(t, PushUnlock(v));
    }

    method LockTail(t: nat, n: Addr, v: int)
      requires t < |threads| && t < |calls| && threads[t] == PushLock(n, v)
      modifies this`tailLock, this`threads
      ensures Current() == PushStep(old(Current()), t, 0)
    {
      if mode.LockFree? || tailLock.None? {
        tailLock := Some(t);
        Move(t, PushLoad(n, v));
      }
    }

    method UnlockTail(t: nat, v: int)
      requires t < |threads|
      modifies this`tailLock, this`threads
      ensures Current() == Goto(old(Current()).(tailLock := None), t, PushDone(v))
    {
      tailLock := None;
      Move(t, PushDone(v));
    }

    method StepPush(t: nat, slot: Addr)
      requires t < |threads| && t < |calls|
      modifies this
      ensures Current() == PushStep(old(Current()), t, slot)
    {
      hide Goto, Log, Return, HasData;
      match threads[t] {
        case PushNew(v) => Allocate(t, slot, v);
        case PushLock(n, v) => LockTail(t, n, v);
        case PushLoad(n, v) => Move(t, PushData(n, v, tail));
        case PushData(_, _, _) => StepFill(t);
        case PushNext(_, _, _) => StepFill(t);
        case PushTail(n, v, last) =>
          if HasData(heap, last) {
            Append(t, n, v, last);
          } else {
            fault := true;
          }
        case PushUnlock(v) => UnlockTail(t, v);
        case PushDone(v) => Finished(t, Pushed(t, v));
        case _ =>
      }
    }

    method TestEmpty(t: nat, kind: PopKind)
      requires t < |threads| && t < |calls|
      modifies this`headLock, this`threads, this`log, this`calls
      ensures Current() == Test(old(Current()), t, kind)
    {
      if kind.waits && mode.TwoLocks? && tailLock.Some? {
        return;
      }
      if head == tail {
        if kind.waits {
          headLock := None;
          Move(t, PopLock(kind));
        } else {
          TakeEffect(t, FoundEmpty(t));
          Move(t, EmptyUnlock);
        }
      } else if kind.into {
        Move(t, PopRead(head));
      } else {
        Move(t, PopHead(head, None));
      }
    }

    method MoveHead(t: nat, first: Addr, taken: Option<int>)
      requires t < |threads| && t < |calls|
      modifies this`head, this`chain, this`threads, this`log, this`calls, this`fault
      ensures Current() == Unlink(old(Current()), t, first, taken)
    {
      if HasData(heap, first) {
        TakeEffect(t, Popped(t, heap[first].data.value));
        head := heap[first].next;
        chain := if chain == [] then [] else chain[1..];
        Move(t, PopUnlock(first, taken));
      } else {
        fault := true;
      }
    }

    method Read(t: nat, first: Addr)
      requires t < |threads| && HasData(heap, first)
      modifies this`threads
      ensures Current() == Goto(old(Current()), t, PopHead(first, heap[first].data))
    {
      Move(t, PopHead(first, heap[first].data));
    }

    method Take(t: nat, first: Addr, taken: Option<int>)
      requires t < |threads| && t < |calls| && threads[t] == PopTake(first, taken)
      modifies this`threads, this`fault
      ensures Current() == PopStep(old(Current()), t)
    {
      if taken.Some? {
        Move(t, PopDelete(first, taken.value));
      } else if HasData(heap, first) {
        Move(t, PopDelete(first, heap[first].data.value));
      } else {
        fault := true;
      }
    }

    method LockHead(t: nat, kind: PopKind)
      requires t < |threads| && t < |calls| && threads[t] == PopLock(kind)
      modifies this`headLock, this`threads
      ensures Current() == PopStep(old(Current()), t)
    {
      if mode.LockFree? || headLock.None? {
        headLock := Some(t);
        Move(t, PopTest(kind));
      }
    }

    method UnlockHead(t: nat, pc: Pc)
      requires t < |threads|
      modifies this`headLock, this`threads
      ensures Current() == Goto(old(Current()).(headLock := None), t, pc)
    {
      headLock := None;
      Move(t, pc);
    }

    method Delete(t: nat, first: Addr, v: int)
      requires t < |threads| && t < |calls| && threads[t] == PopDelete(first, v)
      modifies this`heap, this`threads, this`fault
      ensures Current() == PopStep(old(Current()), t)
    {
      if first in heap {
        heap := heap - {first};
        Move(t, PopDone(v));
      } else {
        fault := true;
      }
    }

    method StepLeave(t: nat)
      requires t < |threads| && t < |calls| && (threads[t].PopDone? || threads[t].EmptyUnlock? || threads[t].EmptyDone?)
      modifies this
      ensures Current() == PopStep(old(Current()), t)
    {
      hide Goto, Log, Return, HasData, Test, Unlink;
      if threads[t].PopDone? {
        Finished(t, Popped(t, threads[t].value));
      } else if threads[t].EmptyUnlock? {
        UnlockHead(t, EmptyDone);
      } else {
        Finished(t, FoundEmpty(t));
      }
    }

    method StepPop(t: nat)
      requires t < |threads| && t < |calls|
      modifies this
      ensures Current() == PopStep(old(Current()), t)
    {
      hide Goto, Log, Return, HasData, Test, Unlink;
      match threads[t] {
        case PopLock(kind) => LockHead(t, kind);
        case PopTest(kind) => TestEmpty(t, kind);
        case PopRead(first) =>
          if HasData(heap, first) {
            Read(t, first);
          } else {
            fault := true;
          }
        case PopHead(first, taken) => MoveHead(t, first, taken);
        case PopUnlock(first, taken) => UnlockHead(t, PopTake(first, taken));
        case PopTake(first, taken) => Take(t, first, taken);
        case PopDelete(first, v) => Delete(t, first, v);
        case PopDone(_) => StepLeave(t);
        case EmptyUnlock => StepLeave(t);
        case EmptyDone => StepLeave(t);
        case _ =>
      }
    }

    /** The next access of thread `t`. */
    method Step(t: nat, slot: Addr)
      requires Valid()
      modifies this
      ensures Current() == Next(old(Current()), Run(t, slot)) && Valid()
    {
      hide Sound, PushStep, PopStep;
      SoundGivesLengths(Current());
      NextKeepsSound(Current(), Run(t, slot));
      if t < |threads| {
        if Pushes(threads[t]) {
          StepPush(t, slot);
        } else {
          StepPop(t);
        }
      }
    }

    /** The destructor: it follows the links and deletes every node. */
    method Destroy()
      requires Valid() && forall t :: 0 <= t < |threads| ==> threads[t].Idle?
      modifies this`heap, this`head
      ensures heap == map[] && head == 0
    {
      IdleIsClean(Current());
      DestroyNodes();
    }

    method DestroyNodes()
      requires Linked(heap, head, tail, chain) && heap[tail].next == 0 && forall a :: a in heap <==> a in chain
      modifies this`heap, this`head
      ensures heap == map[] && head == 0
    {
      ghost var n, nodes := 0, heap;
      assert forall i :: 0 <= i < |chain| ==> chain[i] != 0;
      AllRemain(nodes, chain);
      hide Linked, Remaining;
      while head != 0
        invariant n <= |chain| && nodes == old(heap)
        invariant head == if n < |chain| then chain[n] else 0
        invariant Remaining(nodes, chain, n, heap)
        decreases |chain| - n
      {
        NextNode(nodes, old(head), tail, chain, n, heap);
        var first := head;
        head := heap[first].next;
        heap := heap - {first};
        n := n + 1;
      }
      NoneRemain(nodes, chain, heap);
    }
  }

  lemma {:induction false} SoundGivesLengths(s: State)
    requires Sound(s)
    ensures |s.calls| == |s.threads|
  {
  }

  lemma {:induction false} AllRemain(nodes: map<Addr, Node>, chain: seq<Addr>)
    requires forall a :: a in nodes <==> a in chain
    ensures Remaining(nodes, chain, 0, nodes)
  {
    assert chain[0..] == chain;
  }

  lemma {:induction false} NoneRemain(nodes: map<Addr, Node>, chain: seq<Addr>, heap: map<Addr, Node>)
    ensures Remaining(nodes, chain, |chain|, heap) ==> heap == map[]
  {
  }

  /** The nodes from the `n`th on are left, as they were. */
  ghost predicate Remaining(nodes: map<Addr, Node>, chain: seq<Addr>, n: nat, heap: map<Addr, Node>) {
    && n <= |chain| && (forall a :: a in heap <==> a in chain[n..])
    && (forall a :: a in heap ==> a in nodes && heap[a] == nodes[a])
  }

  lemma {:induction false} NextNode(
    nodes: map<Addr, Node>, head: Addr, tail: Addr, chain: seq<Addr>, n: nat, heap: map<Addr, Node>)
    requires Linked(nodes, head, tail, chain) && nodes[tail].next == 0
    requires n < |chain| && Remaining(nodes, chain, n, heap)
    ensures var a := chain[n];
      && a in heap && Remaining(nodes, chain, n + 1, heap - {a})
      && heap[a].next == if n + 1 < |chain| then chain[n + 1] else 0
  {
    assert n + 1 < |chain| ==> LinkAt(nodes, chain, n);
    assert chain[n..] == [chain[n]] + chain[n + 1..];
    assert chain[n] in chain[n..];
    assert forall a :: a in chain[n..] <==> a == chain[n] || a in chain[n + 1..];
  }
}
