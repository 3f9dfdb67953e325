/**
 * The lock-free stack that frees popped nodes when no other thread is in `pop`.
 *
 * One step of a thread is one access to shared memory. The heap is a map from addresses to nodes;
 * `delete` removes an entry and `new` may take any address that is not in use, so addresses come
 * back. An access to a node that is not there sets `fault`.
 */
module ReclaimStack {
  import opened Histories
  import Runs

  type Addr = nat

  /** `data` is what the node's shared pointer points to. */
  datatype Node = Node(data: int, next: Addr)

  datatype Pc =
    | Idle
    | PushStart(value: int)
    | PushLoad(node: Addr, value: int)
    | PushCas(node: Addr, value: int)
    | PushDone(value: int)
    | PopCount
    | PopLoad
    | PopLoop(top: Addr)
    | PopCas(top: Addr, next: Addr)
    | PopTake(top: Addr)
    | PopCheck(top: Addr, result: int)
    | PopExchange(top: Addr, result: int)
    | PopDecrement(top: Addr, result: int, nodes: Addr)
    | DeleteNodes(top: Addr, result: int, nodes: Addr)
    | ChainFollow(top: Addr, result: int, first: Addr, last: Addr)
    | ChainLink(top: Addr, result: int, first: Addr, last: Addr)
    | ChainCas(top: Addr, result: int, first: Addr, last: Addr)
    | PopDelete(top: Addr, result: int)
    | PopDone(found: bool, result: int)

  /** `pending` is the list of nodes to be deleted later and `count` the number of threads in `pop`,
      a 32-bit word. The last six fields are history: no branch depends on them. */
  datatype State = State(
    heap: map<Addr, Node>, head: Addr, pending: Addr, count: nat, threads: seq<Pc>, fault: bool,
    chain: seq<Addr>, leaked: nat, pops: nat, log: seq<Event>, calls: seq<Call>, completed: seq<Completed>)

  datatype Step =
    | CallPush(thread: nat, value: int)
    | CallPop(thread: nat)
    | Run(thread: nat, slot: Addr, spurious: bool)

  // ---------- the steps ----------

  function Goto(s: State, t: nat, pc: Pc): State
    requires t < |s.threads|
  {
    s.(threads := s.threads[t := pc])
  }

  function Fault(s: State): State {
    s.(fault := true)
  }

  function Log(s: State, t: nat, event: Event): State
    requires t < |s.calls|
  {
    s.(log := s.log + [event], calls := s.calls[t := Effective(Asked(s.calls[t]), Since(s.calls[t]), |s.log|)])
  }

  function SetNext(heap: map<Addr, Node>, n: Addr, next: Addr): map<Addr, Node>
    requires n in heap
  {
    heap[n := heap[n].(next := next)]
  }

  function Rest(chain: seq<Addr>): seq<Addr> {
    if chain == [] then [] else chain[1..]
  }

  function Return(s: State, t: nat, event: Event): State
    requires t < |s.threads| && t < |s.calls|
  {
    var at := if s.calls[t].Effective? then s.calls[t].at else 0;
    Goto(s, t, Idle).(
      calls := s.calls[t := NoCall],
      completed := s.completed + [Completed(Asked(s.calls[t]), event, Since(s.calls[t]), at, |s.log|)])
  }

  /** A pop reads `head`, first or after a failed exchange. An empty stack is noticed here. */
  function LoadHead(s: State, t: nat): State
    requires t < |s.threads| && t < |s.calls|
  {
    var loaded := Goto(s, t, PopLoop(s.head));
    if s.head == 0 then Log(loaded, t, FoundEmpty(t)) else loaded
  }

  function PushStep(s: State, t: nat, slot: Addr, spurious: bool): State
    requires t < |s.threads| && t < |s.calls|
  {
    match s.threads[t]
    case PushStart(v) =>
      if slot == 0 || slot in s.heap then s
      else Goto(s.(heap := s.heap[slot := Node(v, 0)]), t, PushLoad(slot, v))
    case PushLoad(n, v) =>
      if n !in s.heap then Fault(s) else Goto(s.(heap := SetNext(s.heap, n, s.head)), t, PushCas(n, v))
    case PushCas(n, v) =>
      if n !in s.heap then Fault(s)
      else if s.head == s.heap[n].next && !spurious then
        Goto(Log(s, t, Pushed(t, s.heap[n].data)).(head := n, chain := [n] + s.chain), t, PushDone(v))
      else s.(heap := SetNext(s.heap, n, s.head))
    case PushDone(v) => Return(s, t, Pushed(t, v))
    case _ => s
  }

  function PopStep(s: State, t: nat, spurious: bool): State
    requires t < |s.threads| && t < |s.calls|
  {
    match s.threads[t]
    case PopCount => Goto(s.(count := (s.count + 1) % 0x1_0000_0000, pops := s.pops + 1), t, PopLoad)
    case PopLoad => LoadHead(s, t)
    case PopLoop(top) =>
      if top == 0 then Goto(s, t, PopTake(0))
      else if top !in s.heap then Fault(s)
      else Goto(s, t, PopCas(top, s.heap[top].next))
    case PopCas(top, next) =>
      if s.head != top || spurious then LoadHead(s, t)
      else if top !in s.heap then Fault(s)
      else Goto(Log(s, t, Popped(t, s.heap[top].data)).(head := next, chain := Rest(s.chain)), t, PopTake(top))
    case PopTake(top) =>
      if top == 0 then Goto(s, t, PopCheck(0, 0))
      else if top !in s.heap then Fault(s)
      else Goto(s.(heap := s.heap[top := s.heap[top].(data := 0)]), t, PopCheck(top, s.heap[top].data))
    case PopCheck(top, r) =>
      if s.count == 1 then Goto(s, t, PopExchange(top, r))
      else Goto(s.(leaked := s.leaked + 1), t, PopDone(top != 0, r))
    case _ => s
  }

  function ReclaimStep(s: State, t: nat, spurious: bool): State
    requires t < |s.threads| && t < |s.calls|
  {
    match s.threads[t]
    case PopExchange(top, r) => Goto(s.(pending := 0), t, PopDecrement(top, r, s.pending))
    case PopDecrement(top, r, nodes) =>
      var count := (s.count - 1) % 0x1_0000_0000;
      Goto(s.(count := count), t,
        if count == 0 then DeleteNodes(top, r, nodes)
        else if nodes != 0 then ChainFollow(top, r, nodes, nodes)
        else PopDelete(top, r))
    case DeleteNodes(top, r, nodes) =>
      if nodes == 0 then Goto(s, t, PopDelete(top, r))
      else if nodes !in s.heap then Fault(s)
      else Goto(s.(heap := s.heap - {nodes}), t, DeleteNodes(top, r, s.heap[nodes].next))
    case ChainFollow(top, r, first, last) =>
      if last !in s.heap then Fault(s)
      else if s.heap[last].next != 0 then Goto(s, t, ChainFollow(top, r, first, s.heap[last].next))
      else Goto(s, t, ChainLink(top, r, first, last))
    case ChainLink(top, r, first, last) =>
      if last !in s.heap then Fault(s)
      else Goto(s.(heap := SetNext(s.heap, last, s.pending)), t, ChainCas(top, r, first, last))
    case ChainCas(top, r, first, last) =>
      if last !in s.heap then Fault(s)
      else if s.pending == s.heap[last].next && !spurious then Goto(s.(pending := first), t, PopDelete(top, r))
      else s.(heap := SetNext(s.heap, last, s.pending))
    case PopDelete(top, r) =>
      if top == 0 then Goto(s, t, PopDone(false, r))
      else if top !in s.heap then Fault(s)
      else Goto(s.(heap := s.heap - {top}), t, PopDone(true, r))
    case PopDone(found, r) => Return(s, t, if found then Popped(t, r) else FoundEmpty(t))
    case _ => s
  }

  predicate Pushes(pc: Pc) {
    pc.PushStart? || pc.PushLoad? || pc.PushCas? || pc.PushDone?
  }

  predicate Searches(pc: Pc) {
    pc.PopCount? || pc.PopLoad? || pc.PopLoop? || pc.PopCas? || pc.PopTake? || pc.PopCheck?
  }

  function Begin(s: State, t: nat, pc: Pc, op: Operation): State
    requires t < |s.threads| && t < |s.calls|
  {
    if s.threads[t].Idle? then Goto(s, t, pc).(calls := s.calls[t := Begun(op, |s.log|)]) else s
  }

  function Next(s: State, step: Step): State {
    var t := step.thread;
    if t >= |s.threads| || t >= |s.calls| then s
    else
      match step
      case CallPush(_, value) => Begin(s, t, PushStart(value), Push(value))
      case CallPop(_) => Begin(s, t, PopCount, Pop(false))
      case Run(_, slot, spurious) =>
        if Pushes(s.threads[t]) then PushStep(s, t, slot, spurious)
        else if Searches(s.threads[t]) then PopStep(s, t, spurious)
        else ReclaimStep(s, t, spurious)
  }

  function Init(n: nat): State {
    State(map[], 0, 0, 0, seq(n, _ => Idle), false, [], 0, 0, [], seq(n, _ => NoCall), [])
  }

  function RunAll(s: State, steps: seq<Step>): State {
    Runs.Run(Next, s, steps)
  }

  // ---------- what holds in every state ----------

  /** The node that only this thread may unlink, free or link; 0 if none. */
  function Owns(pc: Pc): Addr {
    match pc
    case PushLoad(n, _) => n
    case PushCas(n, _) => n
    case PopTake(top) => top
    case PopCheck(top, _) => top
    case PopExchange(top, _) => top
    case PopDecrement(top, _, _) => top
    case DeleteNodes(top, _, _) => top
    case PopDelete(top, _) => top
    case _ => 0
  }

  /** An owned node that no other thread will look at: not yet published, or condemned. */
  function Hidden(pc: Pc): Addr {
    if pc.PopTake? || pc.PopCheck? then 0 else Owns(pc)
  }

  /** The node a thread may look at without owning it. */
  function Watches(pc: Pc): Addr {
    if pc.PopLoop? || pc.PopCas? then pc.top else 0
  }

  /** Counted by `count` and able to give its place back. */
  predicate InPop(pc: Pc) {
    || pc.PopLoad? || pc.PopLoop? || pc.PopCas? || pc.PopTake?
    || pc.PopCheck? || pc.PopExchange? || pc.PopDecrement?
  }

  function Poppers(threads: seq<Pc>): nat {
    if threads == [] then 0
    else Poppers(threads[..|threads| - 1]) + if InPop(threads[|threads| - 1]) then 1 else 0
  }

  function At(chain: seq<Addr>, i: nat): Addr {
    if i < |chain| then chain[i] else 0
  }

  predicate Linked(heap: map<Addr, Node>, head: Addr, chain: seq<Addr>) {
    && head == At(chain, 0)
    && (forall i :: 0 <= i < |chain| ==> chain[i] != 0 && chain[i] in heap && heap[chain[i]].next == At(chain, i + 1))
    && (forall i, j :: 0 <= i < j < |chain| ==> chain[i] != chain[j])
  }

  function Values(heap: map<Addr, Node>, chain: seq<Addr>): seq<int>
    requires forall i :: 0 <= i < |chain| ==> chain[i] in heap
  {
    seq(|chain|, i requires 0 <= i < |chain| => heap[chain[i]].data)
  }

  predicate ThreadOk(heap: map<Addr, Node>, chain: seq<Addr>, pc: Pc) {
    && (Owns(pc) != 0 ==> Owns(pc) in heap && Owns(pc) !in chain)
    && (Watches(pc) != 0 ==> Watches(pc) in heap)
    && (pc.PopCas? ==> pc.top != 0 && heap[pc.top].next == pc.next)
    && (pc.PushLoad? || pc.PushCas? ==> pc.node != 0 && heap[pc.node].data == pc.value)
    && (pc.PopDecrement? || pc.DeleteNodes? ==> pc.nodes == 0)
    && !pc.ChainFollow? && !pc.ChainLink? && !pc.ChainCas?
  }

  predicate Apart(pc: Pc, other: Pc) {
    && (Owns(pc) != 0 ==> Owns(pc) != Owns(other))
    && (Hidden(pc) != 0 ==> Hidden(pc) != Watches(other))
  }

  predicate Counted(s: State) {
    && Poppers(s.threads) + s.leaked <= s.pops
    && s.count == (Poppers(s.threads) + s.leaked) % 0x1_0000_0000
  }

  predicate MemoryOk(heap: map<Addr, Node>, head: Addr, chain: seq<Addr>, threads: seq<Pc>) {
    && Linked(heap, head, chain)
    && (forall t :: 0 <= t < |threads| ==> ThreadOk(heap, chain, threads[t]))
    && (forall t, u :: 0 <= t < |threads| && 0 <= u < |threads| && t != u ==> Apart(threads[t], threads[u]))
  }

  predicate HasEffect(pc: Pc) {
    match pc
    case PopLoop(top) => top == 0
    case PushDone(_) => true
    case PopTake(_) => true
    case PopCheck(_, _) => true
    case PopExchange(_, _) => true
    case PopDecrement(_, _, _) => true
    case DeleteNodes(_, _, _) => true
    case PopDelete(_, _) => true
    case PopDone(_, _) => true
    case _ => false
  }

  /** The event of a call that took effect, as the thread will report it. */
  function Report(heap: map<Addr, Node>, t: nat, pc: Pc): Event {
    match pc
    case PushDone(v) => Pushed(t, v)
    case PopTake(top) => if top != 0 && top in heap then Popped(t, heap[top].data) else FoundEmpty(t)
    case PopDone(found, r) => if found then Popped(t, r) else FoundEmpty(t)
    case PopLoop(_) => FoundEmpty(t)
    case _ =>
      if Owns(pc) == 0 then FoundEmpty(t)
      else
        match pc
        case PopCheck(_, r) => Popped(t, r)
        case PopExchange(_, r) => Popped(t, r)
        case PopDecrement(_, r, _) => Popped(t, r)
        case DeleteNodes(_, r, _) => Popped(t, r)
        case PopDelete(_, r) => Popped(t, r)
        case _ => FoundEmpty(t)
  }

  /** The thread is at what was asked for. */
  predicate Fits(pc: Pc, op: Operation) {
    match pc
    case Idle => true
    case PushStart(v) => op == Push(v)
    case PushLoad(_, v) => op == Push(v)
    case PushCas(_, v) => op == Push(v)
    case PushDone(v) => op == Push(v)
    case _ => op == Pop(false)
  }

  predicate CallOk(heap: map<Addr, Node>, log: seq<Event>, t: nat, pc: Pc, call: Call) {
    if pc.Idle? then call.NoCall?
    else CallInStep(log, t, call, HasEffect(pc), Report(heap, t, pc)) && Fits(pc, Asked(call))
  }

  predicate CallsOk(s: State) {
    && |s.calls| == |s.threads|
    && (forall t :: 0 <= t < |s.threads| ==> CallOk(s.heap, s.log, t, s.threads[t], s.calls[t]))
    && (forall i :: 0 <= i < |s.completed| ==> CompletedOk(s.log, s.completed[i]))
  }

  predicate Inv(s: State) {
    && !s.fault
    && s.pending == 0
    && Counted(s)
    && MemoryOk(s.heap, s.head, s.chain, s.threads)
    && CallsOk(s)
    && Replay(Stack, s.log) == Legal(Values(s.heap, s.chain))
  }

  // ---------- counting ----------

  lemma {:induction false} PoppersUpdate(threads: seq<Pc>, t: nat, pc: Pc)
    requires t < |threads|
    ensures Poppers(threads[t := pc]) + (if InPop(threads[t]) then 1 else 0) ==
      Poppers(threads) + (if InPop(pc) then 1 else 0)
  {
    var n := |threads| - 1;
    if t == n {
      assert threads[t := pc][..n] == threads[..n];
    } else {
      PoppersUpdate(threads[..n], t, pc);
      assert threads[t := pc][..n] == threads[..n][t := pc];
    }
  }

  lemma {:induction false} PopperCounts(threads: seq<Pc>, t: nat)
    requires t < |threads| && InPop(threads[t])
    ensures Poppers(threads) >= 1
  {
    PoppersUpdate(threads, t, Idle);
  }

  lemma {:induction false} OnlyPopper(threads: seq<Pc>, t: nat, u: nat)
    requires t < |threads| && u < |threads| && t != u && InPop(threads[t]) && Poppers(threads) == 1
    ensures !InPop(threads[u])
  {
    PoppersUpdate(threads, t, Idle);
    if InPop(threads[u]) {
      PopperCounts(threads[t := Idle], u);
    }
  }

  // ---------- one thread moves ----------

  /** What the state of thread `u` needs of the heap, the log and the thread that moves. */
  predicate OtherOk(
    heap: map<Addr, Node>, chain: seq<Addr>, log: seq<Event>, mover: Pc, u: nat, pc: Pc, call: Call)
  {
    && ThreadOk(heap, chain, pc) && CallOk(heap, log, u, pc, call)
    && Apart(pc, mover) && Apart(mover, pc)
  }

  predicate MoverOk(s: State, t: nat)
    requires t < |s.threads| == |s.calls|
  {
    && ThreadOk(s.heap, s.chain, s.threads[t])
    && CallOk(s.heap, s.log, t, s.threads[t], s.calls[t])
  }

  /** What is about the whole rather than about one thread. */
  predicate WholeOk(s: State) {
    && !s.fault && s.pending == 0 && Counted(s)
    && Linked(s.heap, s.head, s.chain)
    && Replay(Stack, s.log) == Legal(Values(s.heap, s.chain))
    && |s.calls| == |s.threads|
    && forall i :: 0 <= i < |s.completed| ==> CompletedOk(s.log, s.completed[i])
  }

  predicate OthersOk(s: State, s': State, t: nat)
    requires t < |s.threads| == |s.calls| && |s'.threads| == |s.threads|
  {
    forall u :: 0 <= u < |s.threads| && u != t ==>
      OtherOk(s'.heap, s'.chain, s'.log, s'.threads[t], u, s.threads[u], s.calls[u])
  }

  predicate MovedOnly(s: State, s': State, t: nat) {
    && t < |s.threads| == |s.calls| && |s'.threads| == |s'.calls| == |s.threads|
    && s'.threads == s.threads[t := s'.threads[t]] && s'.calls == s.calls[t := s'.calls[t]]
  }

  lemma {:induction false} InvGivesParts(s: State, t: nat)
    requires Inv(s) && t < |s.threads|
    ensures WholeOk(s) && MoverOk(s, t) && OthersOk(s, s, t)
  {
    hide ThreadOk, Apart, Linked, CallOk, Counted, Replay, Values;
  }

  lemma {:induction false} PartsGiveInv(s: State, s': State, t: nat)
    requires Inv(s) && MovedOnly(s, s', t)
    requires WholeOk(s') && MoverOk(s', t) && OthersOk(s, s', t)
    ensures Inv(s')
  {
    hide ThreadOk, Apart, Linked, CallOk, CompletedOk, Counted, Replay, Values;
    forall u | 0 <= u < |s'.threads|
      ensures ThreadOk(s'.heap, s'.chain, s'.threads[u]) && CallOk(s'.heap, s'.log, u, s'.threads[u], s'.calls[u])
    {
      assert u != t ==> OtherOk(s'.heap, s'.chain, s'.log, s'.threads[t], u, s.threads[u], s.calls[u]);
    }
    forall u, v | 0 <= u < |s'.threads| && 0 <= v < |s'.threads| && u != v
      ensures Apart(s'.threads[u], s'.threads[v])
    {
      assert u != t ==> OtherOk(s'.heap, s'.chain, s'.log, s'.threads[t], u, s.threads[u], s.calls[u]);
      assert v != t ==> OtherOk(s'.heap, s'.chain, s'.log, s'.threads[t], v, s.threads[v], s.calls[v]);
    }
  }

  // ---------- what a move does to the others ----------

  /** The mover gives up claims or keeps them, and nothing else changes. */
  lemma {:induction false} OtherWhenQuiet(
    heap: map<Addr, Node>, chain: seq<Addr>, log: seq<Event>, mover: Pc, mover': Pc, u: nat, pc: Pc, call: Call)
    requires OtherOk(heap, chain, log, mover, u, pc, call)
    requires Owns(mover') == Owns(mover) || Owns(mover') == 0
    requires
      || Hidden(mover') == Hidden(mover) || Hidden(mover') == 0
      || (Hidden(mover') == Owns(mover) && Watches(pc) == 0)
    requires Watches(mover') == Watches(mover) || Watches(mover') == 0
    ensures OtherOk(heap, chain, log, mover', u, pc, call)
  {
    hide ThreadOk, CallOk, Apart, Owns, Hidden, Watches;
    ApartWhenQuiet(mover, mover', pc);
  }

  lemma {:induction false} ApartWhenQuiet(mover: Pc, mover': Pc, pc: Pc)
    requires Apart(pc, mover) && Apart(mover, pc)
    requires Owns(mover') == Owns(mover) || Owns(mover') == 0
    requires
      || Hidden(mover') == Hidden(mover) || Hidden(mover') == 0
      || (Hidden(mover') == Owns(mover) && Watches(pc) == 0)
    requires Watches(mover') == Watches(mover) || Watches(mover') == 0
    ensures Apart(pc, mover') && Apart(mover', pc)
  {
    hide Owns, Hidden, Watches;
  }

  lemma {:induction false} CallOfOther(
    heap: map<Addr, Node>, heap': map<Addr, Node>, log: seq<Event>, event: Event, u: nat, pc: Pc, call: Call)
    requires CallOk(heap, log, u, pc, call)
    requires pc.PopTake? && pc.top != 0 ==> pc.top in heap && pc.top in heap' && heap'[pc.top].data == heap[pc.top].data
    ensures CallOk(heap', log, u, pc, call)
    ensures event.thread != u ==> CallOk(heap', log + [event], u, pc, call)
  {
  }

  lemma {:induction false} OtherWhenAllocated(
    heap: map<Addr, Node>, chain: seq<Addr>, log: seq<Event>, n: Addr, v: int, u: nat, pc: Pc, call: Call)
    requires OtherOk(heap, chain, log, PushStart(v), u, pc, call) && n != 0 && n !in heap
    ensures OtherOk(heap[n := Node(v, 0)], chain, log, PushLoad(n, v), u, pc, call)
  {
    CallOfOther(heap, heap[n := Node(v, 0)], log, FoundEmpty(0), u, pc, call);
    hide CallOk;
  }

  /** The mover writes the link of a node nobody else looks at. */
  lemma {:induction false} OtherWhenLinked(
    heap: map<Addr, Node>, chain: seq<Addr>, log: seq<Event>, n: Addr, v: int, next: Addr, mover: Pc, u: nat, pc: Pc,
    call: Call)
    requires mover == PushLoad(n, v) || mover == PushCas(n, v)
    requires OtherOk(heap, chain, log, mover, u, pc, call) && n != 0 && n in heap
    ensures OtherOk(SetNext(heap, n, next), chain, log, PushCas(n, v), u, pc, call)
  {
    CallOfOther(heap, SetNext(heap, n, next), log, FoundEmpty(0), u, pc, call);
    hide CallOk;
  }

  lemma {:induction false} OtherWhenPublished(
    heap: map<Addr, Node>, chain: seq<Addr>, log: seq<Event>, n: Addr, v: int, event: Event, u: nat, pc: Pc, call: Call)
    requires OtherOk(heap, chain, log, PushCas(n, v), u, pc, call) && n != 0 && event.thread != u
    ensures OtherOk(heap, [n] + chain, log + [event], PushDone(v), u, pc, call)
  {
    CallOfOther(heap, heap, log, event, u, pc, call);
    hide CallOk;
  }

  lemma {:induction false} OtherWhenLoaded(
    heap: map<Addr, Node>, head: Addr, chain: seq<Addr>, log: seq<Event>, event: Event, mover: Pc, u: nat, pc: Pc,
    call: Call)
    requires OtherOk(heap, chain, log, mover, u, pc, call) && Linked(heap, head, chain) && event.thread != u
    ensures OtherOk(heap, chain, log, PopLoop(head), u, pc, call)
    ensures OtherOk(heap, chain, log + [event], PopLoop(head), u, pc, call)
  {
    CallOfOther(heap, heap, log, event, u, pc, call);
    hide CallOk;
  }

  lemma {:induction false} OtherWhenUnlinked(
    heap: map<Addr, Node>, chain: seq<Addr>, log: seq<Event>, event: Event, mover: Pc, u: nat, pc: Pc, call: Call)
    requires OtherOk(heap, chain, log, mover, u, pc, call) && chain != [] && event.thread != u
    ensures OtherOk(heap, chain[1..], log + [event], PopTake(chain[0]), u, pc, call)
  {
    CallOfOther(heap, heap, log, event, u, pc, call);
    hide CallOk;
  }

  lemma {:induction false} OtherWhenTaken(
    heap: map<Addr, Node>, chain: seq<Addr>, log: seq<Event>, top: Addr, r: int, u: nat, pc: Pc, call: Call)
    requires OtherOk(heap, chain, log, PopTake(top), u, pc, call) && top != 0 && top in heap
    ensures OtherOk(heap[top := heap[top].(data := 0)], chain, log, PopCheck(top, r), u, pc, call)
  {
    CallOfOther(heap, heap[top := heap[top].(data := 0)], log, FoundEmpty(0), u, pc, call);
    hide CallOk;
  }

  lemma {:induction false} OtherWhenFreed(
    heap: map<Addr, Node>, chain: seq<Addr>, log: seq<Event>, top: Addr, r: int, u: nat, pc: Pc, call: Call)
    requires OtherOk(heap, chain, log, PopDelete(top, r), u, pc, call) && top != 0 && top in heap
    ensures OtherOk(heap - {top}, chain, log, PopDone(true, r), u, pc, call)
  {
    CallOfOther(heap, heap - {top}, log, FoundEmpty(0), u, pc, call);
    hide CallOk;
  }

  // ---------- each step ----------

  predicate StepOk(s: State, s': State, t: nat) {
    MovedOnly(s, s', t) && WholeOk(s') && MoverOk(s', t) && OthersOk(s, s', t)
  }

  predicate Ready(s: State, t: nat) {
    WholeOk(s) && t < |s.threads| == |s.calls| && MoverOk(s, t) && OthersOk(s, s, t)
  }

  lemma {:induction false} CountKept(s: State, s': State, t: nat)
    requires Counted(s) && MovedOnly(s, s', t) && InPop(s'.threads[t]) == InPop(s.threads[t])
    requires s'.leaked == s.leaked && s'.pops == s.pops && s'.count == s.count
    ensures Counted(s')
  {
    PoppersUpdate(s.threads, t, s'.threads[t]);
  }

  lemma {:induction false} ValuesKept(heap: map<Addr, Node>, heap': map<Addr, Node>, chain: seq<Addr>)
    requires forall i :: 0 <= i < |chain| ==>
      chain[i] in heap && chain[i] in heap' && heap'[chain[i]].data == heap[chain[i]].data
    ensures Values(heap', chain) == Values(heap, chain)
  {
  }

  /** The mover gives up claims or keeps them, and nothing else changes. */
  lemma {:induction false} QuietStep(s: State, s': State, t: nat)
    requires Ready(s, t) && |s'.threads| == |s'.calls| == |s.threads|
    requires s' == Goto(s, t, s'.threads[t]).(calls := s.calls[t := s'.calls[t]], completed := s'.completed,
      count := s'.count, leaked := s'.leaked, pops := s'.pops, pending := 0)
    requires Counted(s') && MoverOk(s', t)
    requires forall i :: 0 <= i < |s'.completed| ==> CompletedOk(s'.log, s'.completed[i])
    requires Owns(s'.threads[t]) == Owns(s.threads[t]) || Owns(s'.threads[t]) == 0
    requires
      || Hidden(s'.threads[t]) == Hidden(s.threads[t]) || Hidden(s'.threads[t]) == 0
      || (Hidden(s'.threads[t]) == Owns(s.threads[t]) &&
          forall u :: 0 <= u < |s.threads| && u != t ==> Watches(s.threads[u]) == 0)
    requires Watches(s'.threads[t]) == Watches(s.threads[t]) || Watches(s'.threads[t]) == 0
    ensures StepOk(s, s', t)
  {
    hide ThreadOk, Apart, Linked, CallOk, CompletedOk, Counted, Replay, Values, OtherOk, Owns, Hidden;
    forall u | 0 <= u < |s.threads| && u != t
      ensures OtherOk(s'.heap, s'.chain, s'.log, s'.threads[t], u, s.threads[u], s.calls[u])
    {
      OtherWhenQuiet(s.heap, s.chain, s.log, s.threads[t], s'.threads[t], u, s.threads[u], s.calls[u]);
    }
  }

  lemma {:induction false} BeginStep(s: State, t: nat, pc: Pc, op: Operation)
    requires Ready(s, t) && s.threads[t].Idle? && (pc.PushStart? || pc.PopCount?) && Fits(pc, op)
    ensures StepOk(s, Begin(s, t, pc, op), t)
  {
    CountKept(s, Begin(s, t, pc, op), t);
    QuietStep(s, Begin(s, t, pc, op), t);
  }

  lemma {:induction false} ReturnStep(s: State, t: nat, event: Event)
    requires Ready(s, t) && (s.threads[t].PushDone? || s.threads[t].PopDone?)
    requires event == Report(s.heap, t, s.threads[t])
    ensures StepOk(s, Return(s, t, event), t)
  {
    var s' := Return(s, t, event);
    CountKept(s, s', t);
    assert CompletedOk(s.log, s'.completed[|s.completed|]);
    assert forall i :: 0 <= i < |s.completed| ==> s'.completed[i] == s.completed[i];
    QuietStep(s, s', t);
  }

  lemma {:induction false} AllocateStep(s: State, t: nat, n: Addr)
    requires Ready(s, t) && s.threads[t].PushStart? && n != 0 && n !in s.heap
    ensures StepOk(s, PushStep(s, t, n, false), t)
  {
    hide CallOk, Counted, Replay, Values, Apart, CompletedOk;
    var s', v := PushStep(s, t, n, false), s.threads[t].value;
    CountKept(s, s', t);
    ValuesKept(s.heap, s'.heap, s.chain);
    assert MoverOk(s', t) by {
      CallOfOther(s.heap, s'.heap, s.log, FoundEmpty(0), t, s.threads[t], s.calls[t]);
      CallKeepsWaiting(s'.heap, s.log, t, s.threads[t], s'.threads[t], s.calls[t]);
    }
    forall u | 0 <= u < |s.threads| && u != t
      ensures OtherOk(s'.heap, s'.chain, s'.log, s'.threads[t], u, s.threads[u], s.calls[u])
    {
      OtherWhenAllocated(s.heap, s.chain, s.log, n, v, u, s.threads[u], s.calls[u]);
    }
  }

  lemma {:induction false} CallKeepsWaiting(heap: map<Addr, Node>, log: seq<Event>, t: nat, pc: Pc, pc': Pc, call: Call)
    requires CallOk(heap, log, t, pc, call) && !pc.Idle? && !HasEffect(pc) && !pc'.Idle? && !HasEffect(pc')
    requires forall op :: Fits(pc, op) ==> Fits(pc', op)
    ensures CallOk(heap, log, t, pc', call)
  {
  }

  lemma {:induction false} LinkStep(s: State, s': State, t: nat)
    requires Ready(s, t) && (s.threads[t].PushLoad? || s.threads[t].PushCas?)
    requires var pc := s.threads[t];
      pc.node in s.heap && s' == Goto(s.(heap := SetNext(s.heap, pc.node, s.head)), t, PushCas(pc.node, pc.value))
    ensures StepOk(s, s', t)
  {
    hide CallOk, Counted, Replay, Values, Apart, CompletedOk;
    var pc := s.threads[t];
    CountKept(s, s', t);
    ValuesKept(s.heap, s'.heap, s.chain);
    assert MoverOk(s', t) by {
      CallOfOther(s.heap, s'.heap, s.log, FoundEmpty(0), t, pc, s.calls[t]);
      CallKeepsWaiting(s'.heap, s.log, t, pc, s'.threads[t], s.calls[t]);
    }
    forall u | 0 <= u < |s.threads| && u != t
      ensures OtherOk(s'.heap, s'.chain, s'.log, s'.threads[t], u, s.threads[u], s.calls[u])
    {
      OtherWhenLinked(s.heap, s.chain, s.log, pc.node, pc.value, s.head, pc, u, s.threads[u], s.calls[u]);
    }
  }

  lemma {:induction false} LoggedCall(
    heap: map<Addr, Node>, log: seq<Event>, t: nat, pc: Pc, pc': Pc, call: Call, event: Event)
    requires CallOk(heap, log, t, pc, call) && !pc.Idle? && !HasEffect(pc) && HasEffect(pc')
    requires forall op :: Fits(pc, op) ==> Fits(pc', op)
    requires event == Report(heap, t, pc') && event.thread == t
    ensures CallOk(heap, log + [event], t, pc', Effective(Asked(call), Since(call), |log|))
  {
  }

  lemma {:induction false} LoggedParts(s: State, t: nat, event: Event)
    requires WholeOk(s) && t < |s.threads|
    ensures forall i :: 0 <= i < |s.completed| ==> CompletedOk(s.log + [event], s.completed[i])
    ensures Replay(Stack, s.log + [event]) == Apply(Stack, Values(s.heap, s.chain), event)
  {
    hide CompletedOk, Counted, Linked, Values, Replay;
    ReplayAppend(Stack, s.log, event);
    forall i | 0 <= i < |s.completed| ensures CompletedOk(s.log + [event], s.completed[i]) {
      CompletedKept(s.log, event, s.completed[i]);
    }
  }

  lemma {:induction false} PublishLinked(heap: map<Addr, Node>, head: Addr, chain: seq<Addr>, n: Addr)
    requires Linked(heap, head, chain) && n in heap && n != 0 && n !in chain && heap[n].next == head
    ensures Linked(heap, n, [n] + chain)
  {
    var chain' := [n] + chain;
    forall i | 0 <= i < |chain'|
      ensures chain'[i] != 0 && chain'[i] in heap && heap[chain'[i]].next == At(chain', i + 1)
    {
      assert i > 0 ==> chain'[i] == chain[i - 1] && At(chain', i + 1) == At(chain, i);
    }
  }

  lemma {:induction false} PublishValues(heap: map<Addr, Node>, head: Addr, chain: seq<Addr>, n: Addr)
    requires n in heap && Linked(heap, head, chain)
    ensures Values(heap, [n] + chain) == [heap[n].data] + Values(heap, chain)
  {
  }

  lemma {:induction false} PublishStep(s: State, t: nat)
    requires Ready(s, t) && s.threads[t].PushCas?
    requires s.threads[t].node in s.heap && s.heap[s.threads[t].node].next == s.head
    ensures StepOk(s, PushStep(s, t, 0, false), t)
  {
    hide CallOk, Counted, Replay, Values, Apart, CompletedOk, Linked;
    var s', pc := PushStep(s, t, 0, false), s.threads[t];
    var event := Pushed(t, s.heap[pc.node].data);
    CountKept(s, s', t);
    LoggedParts(s, t, event);
    PublishLinked(s.heap, s.head, s.chain, pc.node);
    PublishValues(s.heap, s.head, s.chain, pc.node);
    LoggedCall(s.heap, s.log, t, pc, s'.threads[t], s.calls[t], event);
    forall u | 0 <= u < |s.threads| && u != t
      ensures OtherOk(s'.heap, s'.chain, s'.log, s'.threads[t], u, s.threads[u], s.calls[u])
    {
      OtherWhenPublished(s.heap, s.chain, s.log, pc.node, pc.value, event, u, s.threads[u], s.calls[u]);
    }
  }

  lemma {:induction false} CountCounts(s: State, t: nat)
    requires Counted(s) && t < |s.threads| == |s.calls| && s.threads[t].PopCount? && s.pops <= 0xFFFF_FFFF
    ensures Counted(PopStep(s, t, false))
  {
    hide LoadHead, Poppers;
    PoppersUpdate(s.threads, t, PopLoad);
  }

  lemma {:induction false} CountStep(s: State, t: nat)
    requires Ready(s, t) && s.threads[t].PopCount? && s.pops <= 0xFFFF_FFFF
    ensures StepOk(s, PopStep(s, t, false), t)
  {
    hide CallOk, Counted, Poppers, Apart, OthersOk, Linked, Replay, Values, StepOk;
    CountCounts(s, t);
    CallKeepsWaiting(s.heap, s.log, t, PopCount, PopLoad, s.calls[t]);
    QuietStep(s, PopStep(s, t, false), t);
  }

  lemma {:induction false} LoadTopStep(s: State, t: nat)
    requires Ready(s, t) && (s.threads[t].PopLoad? || s.threads[t].PopCas?) && s.head != 0
    ensures StepOk(s, LoadHead(s, t), t)
  {
    hide Counted, Replay, Values, Apart, CompletedOk, CallOk;
    var s', pc := LoadHead(s, t), s.threads[t];
    CountKept(s, s', t);
    CallKeepsWaiting(s.heap, s.log, t, pc, s'.threads[t], s.calls[t]);
    forall u | 0 <= u < |s.threads| && u != t
      ensures OtherOk(s'.heap, s'.chain, s'.log, s'.threads[t], u, s.threads[u], s.calls[u])
    {
      OtherWhenLoaded(s.heap, s.head, s.chain, s.log, FoundEmpty(t), pc, u, s.threads[u], s.calls[u]);
    }
  }

  lemma {:induction false} NothingLinked(heap: map<Addr, Node>, chain: seq<Addr>)
    requires Linked(heap, 0, chain)
    ensures chain == [] && Values(heap, chain) == []
  {
  }

  lemma {:induction false} LoadNothingStep(s: State, t: nat)
    requires Ready(s, t) && (s.threads[t].PopLoad? || s.threads[t].PopCas?) && s.head == 0
    ensures StepOk(s, LoadHead(s, t), t)
  {
    hide CallOk, Counted, Replay, Values, Apart, CompletedOk;
    var s', pc, event := LoadHead(s, t), s.threads[t], FoundEmpty(t);
    NothingLinked(s.heap, s.chain);
    CountKept(s, s', t);
    LoggedParts(s, t, event);
    LoggedCall(s.heap, s.log, t, pc, s'.threads[t], s.calls[t], event);
    forall u | 0 <= u < |s.threads| && u != t
      ensures OtherOk(s'.heap, s'.chain, s'.log, s'.threads[t], u, s.threads[u], s.calls[u])
    {
      OtherWhenLoaded(s.heap, s.head, s.chain, s.log, event, pc, u, s.threads[u], s.calls[u]);
    }
  }

  lemma {:induction false} LoadStep(s: State, t: nat)
    requires Ready(s, t) && (s.threads[t].PopLoad? || s.threads[t].PopCas?)
    ensures StepOk(s, LoadHead(s, t), t)
  {
    hide StepOk, Ready;
    if s.head == 0 {
      LoadNothingStep(s, t);
    } else {
      LoadTopStep(s, t);
    }
  }

  lemma {:induction false} LookStep(s: State, t: nat)
    requires Ready(s, t) && s.threads[t].PopLoop?
    ensures StepOk(s, PopStep(s, t, false), t)
  {
    var s' := PopStep(s, t, false);
    CountKept(s, s', t);
    QuietStep(s, s', t);
  }

  lemma {:induction false} UnlinkLinked(heap: map<Addr, Node>, head: Addr, chain: seq<Addr>)
    requires Linked(heap, head, chain) && head != 0
    ensures chain != [] && chain[0] == head && head in heap && head !in chain[1..]
    ensures Linked(heap, heap[head].next, chain[1..])
    ensures Values(heap, chain) == [heap[head].data] + Values(heap, chain[1..])
  {
    var rest := chain[1..];
    forall i | 0 <= i < |rest|
      ensures rest[i] != 0 && rest[i] in heap && heap[rest[i]].next == At(rest, i + 1)
    {
      assert rest[i] == chain[i + 1] && At(rest, i + 1) == At(chain, i + 2);
    }
  }

  /** The exchange succeeds only if `next` is still right, although the address may have been freed
      and used again in the meantime. */
  lemma {:induction false} UnlinkStep(s: State, t: nat)
    requires Ready(s, t) && s.threads[t].PopCas? && s.head == s.threads[t].top
    ensures StepOk(s, PopStep(s, t, false), t)
  {
    hide CallOk, Counted, Replay, Values, Apart, CompletedOk, Linked;
    var s', pc := PopStep(s, t, false), s.threads[t];
    var event := Popped(t, s.heap[pc.top].data);
    CountKept(s, s', t);
    UnlinkLinked(s.heap, s.head, s.chain);
    LoggedParts(s, t, event);
    LoggedCall(s.heap, s.log, t, pc, s'.threads[t], s.calls[t], event);
    forall u | 0 <= u < |s.threads| && u != t
      ensures OtherOk(s'.heap, s'.chain, s'.log, s'.threads[t], u, s.threads[u], s.calls[u])
    {
      OtherWhenUnlinked(s.heap, s.chain, s.log, event, pc, u, s.threads[u], s.calls[u]);
    }
  }

  lemma {:induction false} TakeNothingStep(s: State, t: nat)
    requires Ready(s, t) && s.threads[t] == PopTake(0)
    ensures StepOk(s, PopStep(s, t, false), t)
  {
    CountKept(s, PopStep(s, t, false), t);
    QuietStep(s, PopStep(s, t, false), t);
  }

  lemma {:induction false} CallAfterTaking(heap: map<Addr, Node>, log: seq<Event>, t: nat, top: Addr, call: Call)
    requires CallOk(heap, log, t, PopTake(top), call) && top != 0 && top in heap
    ensures CallOk(heap[top := heap[top].(data := 0)], log, t, PopCheck(top, heap[top].data), call)
  {
  }

  lemma {:induction false} TakeStep(s: State, t: nat)
    requires Ready(s, t) && s.threads[t].PopTake? && s.threads[t].top != 0
    ensures StepOk(s, PopStep(s, t, false), t)
  {
    hide Counted, Replay, Values, Apart, CompletedOk, CallOk;
    var s', pc := PopStep(s, t, false), s.threads[t];
    CountKept(s, s', t);
    ValuesKept(s.heap, s'.heap, s.chain);
    CallAfterTaking(s.heap, s.log, t, pc.top, s.calls[t]);
    forall u | 0 <= u < |s.threads| && u != t
      ensures OtherOk(s'.heap, s'.chain, s'.log, s'.threads[t], u, s.threads[u], s.calls[u])
    {
      OtherWhenTaken(s.heap, s.chain, s.log, pc.top, s.heap[pc.top].data, u, s.threads[u], s.calls[u]);
    }
  }

  lemma {:induction false} NoOtherPopper(threads: seq<Pc>, t: nat)
    requires t < |threads| && InPop(threads[t]) && forall u :: 0 <= u < |threads| && u != t ==> !InPop(threads[u])
    ensures Poppers(threads) == 1
    decreases |threads|
  {
    var n := |threads| - 1;
    if t < n {
      NoOtherPopper(threads[..n], t);
    } else {
      NoneInPop(threads[..n]);
    }
  }

  lemma {:induction false} NoneInPop(threads: seq<Pc>)
    requires forall u :: 0 <= u < |threads| ==> !InPop(threads[u])
    ensures Poppers(threads) == 0
    decreases |threads|
  {
    if threads != [] {
      NoneInPop(threads[..|threads| - 1]);
    }
  }

  predicate SolePopper(threads: seq<Pc>, t: nat) {
    forall u :: 0 <= u < |threads| && u != t ==> !InPop(threads[u])
  }

  /** A node is condemned exactly by a sole popper, and as long as no pop has gone uncounted. So a single
      pop that finds another one on its way keeps the stack from ever freeing a node again. */
  lemma {:induction false} CheckCounts(s: State, t: nat)
    requires Counted(s) && t < |s.threads| == |s.calls| && s.threads[t].PopCheck? && s.pops <= 0x1_0000_0000
    ensures Counted(PopStep(s, t, false))
    ensures PopStep(s, t, false).threads[t].PopExchange? <==> s.leaked == 0 && SolePopper(s.threads, t)
  {
    hide Poppers, LoadHead, Log;
    PoppersUpdate(s.threads, t, PopStep(s, t, false).threads[t]);
    PopperCounts(s.threads, t);
    if s.count == 1 {
      forall u | 0 <= u < |s.threads| && u != t ensures !InPop(s.threads[u]) {
        OnlyPopper(s.threads, t, u);
      }
    } else if SolePopper(s.threads, t) {
      NoOtherPopper(s.threads, t);
    }
  }

  lemma {:induction false} CheckStep(s: State, t: nat)
    requires Ready(s, t) && s.threads[t].PopCheck? && s.pops <= 0x1_0000_0000
    ensures StepOk(s, PopStep(s, t, false), t)
  {
    hide CallOk, Apart, Counted, Poppers, OthersOk, Linked, Replay, Values, StepOk;
    var s' := PopStep(s, t, false);
    CheckCounts(s, t);
    CallWithSameReport(s.heap, s.log, t, s.threads[t], s'.threads[t], s.calls[t]);
    assert s.count == 1 ==> forall u :: 0 <= u < |s.threads| && u != t ==>
      !InPop(s.threads[u]) && Watches(s.threads[u]) == 0;
    QuietStep(s, s', t);
  }

  lemma {:induction false} CallWithSameReport(
    heap: map<Addr, Node>, log: seq<Event>, t: nat, pc: Pc, pc': Pc, call: Call)
    requires CallOk(heap, log, t, pc, call) && HasEffect(pc) && HasEffect(pc') && !pc.Idle?
    requires Report(heap, t, pc') == Report(heap, t, pc) && forall op :: Fits(pc, op) ==> Fits(pc', op)
    ensures CallOk(heap, log, t, pc', call)
  {
  }

  lemma {:induction false} ExchangeStep(s: State, t: nat)
    requires Ready(s, t) && (s.threads[t].PopExchange? || s.threads[t].DeleteNodes?)
    ensures StepOk(s, ReclaimStep(s, t, false), t)
  {
    hide CallOk, Counted, Apart;
    var s', pc := ReclaimStep(s, t, false), s.threads[t];
    CountKept(s, s', t);
    CallWithSameReport(s.heap, s.log, t, pc, s'.threads[t], s.calls[t]);
    QuietStep(s, s', t);
  }

  lemma {:induction false} DecrementCounts(s: State, t: nat)
    requires Counted(s) && t < |s.threads| == |s.calls| && s.threads[t].PopDecrement? && s.pops <= 0x1_0000_0000
    ensures Counted(ReclaimStep(s, t, false))
  {
    hide Poppers, Return;
    PoppersUpdate(s.threads, t, ReclaimStep(s, t, false).threads[t]);
    PopperCounts(s.threads, t);
  }

  lemma {:induction false} DecrementStep(s: State, t: nat)
    requires Ready(s, t) && s.threads[t].PopDecrement? && s.pops <= 0x1_0000_0000
    ensures StepOk(s, ReclaimStep(s, t, false), t)
  {
    hide CallOk, Apart, Counted, Poppers, OthersOk, Linked, Replay, Values, StepOk;
    var s', pc := ReclaimStep(s, t, false), s.threads[t];
    DecrementCounts(s, t);
    CallWithSameReport(s.heap, s.log, t, pc, s'.threads[t], s.calls[t]);
    QuietStep(s, s', t);
  }

  lemma {:induction false} DeleteNothingStep(s: State, t: nat)
    requires Ready(s, t) && s.threads[t].PopDelete? && s.threads[t].top == 0
    ensures StepOk(s, ReclaimStep(s, t, false), t)
  {
    CountKept(s, ReclaimStep(s, t, false), t);
    QuietStep(s, ReclaimStep(s, t, false), t);
  }

  lemma {:induction false} DeleteStep(s: State, t: nat)
    requires Ready(s, t) && s.threads[t].PopDelete? && s.threads[t].top != 0
    ensures StepOk(s, ReclaimStep(s, t, false), t)
  {
    hide Counted, Replay, Values, Apart, CompletedOk, CallOk;
    var s', pc := ReclaimStep(s, t, false), s.threads[t];
    CountKept(s, s', t);
    ValuesKept(s.heap, s'.heap, s.chain);
    CallWithSameReport(s.heap, s.log, t, pc, s'.threads[t], s.calls[t]);
    CallOfOther(s.heap, s'.heap, s.log, FoundEmpty(0), t, s'.threads[t], s.calls[t]);
    forall u | 0 <= u < |s.threads| && u != t
      ensures OtherOk(s'.heap, s'.chain, s'.log, s'.threads[t], u, s.threads[u], s.calls[u])
    {
      OtherWhenFreed(s.heap, s.chain, s.log, pc.top, pc.result, u, s.threads[u], s.calls[u]);
    }
  }

  // ---------- every run ----------

  lemma {:induction false} Finish(s: State, s': State, t: nat)
    requires Inv(s) && StepOk(s, s', t)
    ensures Inv(s')
  {
    hide Inv, WholeOk, OthersOk, MoverOk;
    PartsGiveInv(s, s', t);
  }

  /** The bound on the number of pops keeps the 32-bit counter from coming back to 1. */
  lemma {:induction false} NextKeepsInv(s: State, step: Step)
    requires Inv(s) && Next(s, step).pops <= 0x1_0000_0000
    ensures Inv(Next(s, step))
  {
    var t, s' := step.thread, Next(s, step);
    if t < |s.threads| && t < |s.calls| && s' != s {
      InvGivesParts(s, t);
      hide Inv, StepOk, WholeOk, OthersOk, MoverOk;
      match step
      case CallPush(_, value) => BeginStep(s, t, PushStart(value), Push(value)); Finish(s, s', t);
      case CallPop(_) => BeginStep(s, t, PopCount, Pop(false)); Finish(s, s', t);
      case Run(_, slot, spurious) =>
        if Pushes(s.threads[t]) {
          PushKeepsInv(s, t, slot, spurious);
        } else if Searches(s.threads[t]) {
          PopKeepsInv(s, t, spurious);
        } else {
          ReclaimKeepsInv(s, t, spurious);
        }
    }
  }

  lemma {:induction false} PushKeepsInv(s: State, t: nat, slot: Addr, spurious: bool)
    requires Inv(s) && Ready(s, t) && Pushes(s.threads[t]) && PushStep(s, t, slot, spurious) != s
    ensures Inv(PushStep(s, t, slot, spurious))
  {
    hide Inv, StepOk, WholeOk, OthersOk;
    var s' := PushStep(s, t, slot, spurious);
    match s.threads[t]
    case PushStart(_) => AllocateStep(s, t, slot); Finish(s, s', t);
    case PushLoad(_, _) => LinkStep(s, s', t); Finish(s, s', t);
    case PushCas(n, _) =>
      if s.head == s.heap[n].next && !spurious {
        PublishStep(s, t);
      } else {
        assert s.threads[t := s.threads[t]] == s.threads;
        LinkStep(s, s', t);
      }
      Finish(s, s', t);
    case PushDone(_) => ReturnStep(s, t, Report(s.heap, t, s.threads[t])); Finish(s, s', t);
  }

  lemma {:induction false} PopKeepsInv(s: State, t: nat, spurious: bool)
    requires Inv(s) && Ready(s, t) && Searches(s.threads[t]) && PopStep(s, t, spurious).pops <= 0x1_0000_0000
    ensures Inv(PopStep(s, t, spurious))
  {
    hide Inv, StepOk, WholeOk, OthersOk;
    var s', pc := PopStep(s, t, spurious), s.threads[t];
    match pc
    case PopCount => CountStep(s, t); Finish(s, s', t);
    case PopLoad => LoadStep(s, t); Finish(s, s', t);
    case PopLoop(_) => LookStep(s, t); Finish(s, s', t);
    case PopCas(top, _) =>
      if s.head != top || spurious {
        LoadStep(s, t);
      } else {
        UnlinkStep(s, t);
      }
      Finish(s, s', t);
    case PopTake(top) =>
      if top == 0 {
        TakeNothingStep(s, t);
      } else {
        TakeStep(s, t);
      }
      Finish(s, s', t);
    case PopCheck(_, _) => CheckStep(s, t); Finish(s, s', t);
  }

  lemma {:induction false} ReclaimKeepsInv(s: State, t: nat, spurious: bool)
    requires Inv(s) && Ready(s, t) && !Pushes(s.threads[t]) && !Searches(s.threads[t])
    requires ReclaimStep(s, t, spurious) != s && s.pops <= 0x1_0000_0000
    ensures Inv(ReclaimStep(s, t, spurious))
  {
    hide Inv, StepOk, WholeOk, OthersOk;
    var s' := ReclaimStep(s, t, spurious);
    match s.threads[t]
    case PopExchange(_, _) => ExchangeStep(s, t); Finish(s, s', t);
    case DeleteNodes(_, _, _) => ExchangeStep(s, t); Finish(s, s', t);
    case PopDecrement(_, _, _) => DecrementStep(s, t); Finish(s, s', t);
    case PopDelete(top, _) =>
      if top == 0 {
        DeleteNothingStep(s, t);
      } else {
        DeleteStep(s, t);
      }
      Finish(s, s', t);
    case PopDone(_, _) => ReturnStep(s, t, Report(s.heap, t, s.threads[t])); Finish(s, s', t);
  }

  /** Steps keep the number of threads, and never undo a pop or an effect. */
  predicate Grows(s: State, s': State) {
    |s'.threads| == |s.threads| && |s'.calls| == |s.calls| && s.pops <= s'.pops && |s.log| <= |s'.log|
  }

  lemma {:induction false} PushGrows(s: State, t: nat, slot: Addr, spurious: bool)
    requires t < |s.threads| && t < |s.calls|
    ensures Grows(s, PushStep(s, t, slot, spurious))
  {
  }

  lemma {:induction false} LoadGrows(s: State, t: nat)
    requires t < |s.threads| && t < |s.calls|
    ensures Grows(s, LoadHead(s, t))
  {
  }

  lemma {:induction false} ExchangeGrows(s: State, t: nat, spurious: bool)
    requires t < |s.threads| && t < |s.calls| && s.threads[t].PopCas?
    ensures Grows(s, PopStep(s, t, spurious))
  {
    hide LoadHead, Rest;
    LoadGrows(s, t);
  }

  lemma {:induction false} PopGrows(s: State, t: nat, spurious: bool)
    requires t < |s.threads| && t < |s.calls|
    ensures Grows(s, PopStep(s, t, spurious))
  {
    hide LoadHead, Rest, Log;
    LoadGrows(s, t);
    if s.threads[t].PopCas? {
      ExchangeGrows(s, t, spurious);
    }
  }

  lemma {:induction false} ReclaimGrows(s: State, t: nat, spurious: bool)
    requires t < |s.threads| && t < |s.calls|
    ensures Grows(s, ReclaimStep(s, t, spurious))
  {
  }

  lemma {:induction false} NextGrows(s: State, step: Step)
    ensures Grows(s, Next(s, step))
  {
    hide PushStep, PopStep, ReclaimStep;
    var t := step.thread;
    if step.Run? && t < |s.threads| && t < |s.calls| {
      PushGrows(s, t, step.slot, step.spurious);
      PopGrows(s, t, step.spurious);
      ReclaimGrows(s, t, step.spurious);
    }
  }

  lemma {:induction false} NoPoppers(n: nat)
    ensures Poppers(seq(n, _ => Idle)) == 0
  {
    if n > 0 {
      NoPoppers(n - 1);
      assert seq(n, _ => Idle)[..n - 1] == seq(n - 1, _ => Idle);
    }
  }

  lemma {:induction false} InitOk(n: nat)
    ensures Inv(Init(n))
  {
    NoPoppers(n);
    assert Values(map[], []) == [];
  }

  /** How the history goes on when thread `t` takes a step. */
  predicate HistoryMoves(s: State, s': State, t: nat, move: Move) {
    Moves(|s.log|, s.calls, s.completed, |s'.log|, s'.calls, s'.completed, t, move)
  }

  /** Thread `t` has a call that is as far as its program counter says. */
  predicate InStep(s: State, t: nat) {
    t < |s.threads| == |s.calls| && CallOk(s.heap, s.log, t, s.threads[t], s.calls[t])
  }

  lemma {:induction false} EffectHistory(s: State, t: nat, event: Event)
    requires InStep(s, t) && !HasEffect(s.threads[t])
    ensures HistoryMoves(s, Log(s, t, event), t, TakesPlace)
  {
  }

  lemma {:induction false} ReturnHistory(s: State, t: nat, event: Event) returns (move: Move)
    requires InStep(s, t) && !s.threads[t].Idle? && HasEffect(s.threads[t])
    ensures HistoryMoves(s, Return(s, t, event), t, move)
  {
    move := Returns(Completed(Asked(s.calls[t]), event, Since(s.calls[t]), s.calls[t].at, |s.log|));
  }

  lemma {:induction false} PushHistory(s: State, t: nat, slot: Addr, spurious: bool) returns (move: Move)
    requires InStep(s, t)
    ensures HistoryMoves(s, PushStep(s, t, slot, spurious), t, move)
  {
    hide CallOk, Return;
    move := Quiet;
    match s.threads[t]
    case PushCas(n, v) =>
      if n in s.heap && s.head == s.heap[n].next && !spurious {
        EffectHistory(s, t, Pushed(t, s.heap[n].data));
        move := TakesPlace;
      }
    case PushDone(v) => move := ReturnHistory(s, t, Pushed(t, v));
    case _ =>
  }

  lemma {:induction false} LoadHistory(s: State, t: nat) returns (move: Move)
    requires InStep(s, t) && !HasEffect(s.threads[t])
    ensures HistoryMoves(s, LoadHead(s, t), t, move)
  {
    hide CallOk;
    move := Quiet;
    if s.head == 0 {
      EffectHistory(s, t, FoundEmpty(t));
      move := TakesPlace;
    }
  }

  lemma {:induction false} PopHistory(s: State, t: nat, spurious: bool) returns (move: Move)
    requires InStep(s, t)
    ensures HistoryMoves(s, PopStep(s, t, spurious), t, move)
  {
    hide CallOk, Rest, LoadHead;
    move := Quiet;
    match s.threads[t]
    case PopLoad => move := LoadHistory(s, t);
    case PopCas(top, _) =>
      if s.head != top || spurious {
        move := LoadHistory(s, t);
      } else if top in s.heap {
        EffectHistory(s, t, Popped(t, s.heap[top].data));
        move := TakesPlace;
      }
    case _ =>
  }

  lemma {:induction false} ReclaimHistory(s: State, t: nat, spurious: bool) returns (move: Move)
    requires InStep(s, t)
    ensures HistoryMoves(s, ReclaimStep(s, t, spurious), t, move)
  {
    hide CallOk, Return;
    move := Quiet;
    var pc := s.threads[t];
    if pc.PopDone? {
      move := ReturnHistory(s, t, if pc.found then Popped(t, pc.result) else FoundEmpty(t));
    }
  }

  lemma {:induction false} BeginHistory(s: State, t: nat, pc: Pc, op: Operation) returns (move: Move)
    requires InStep(s, t)
    ensures HistoryMoves(s, Begin(s, t, pc, op), t, move)
  {
    move := if s.threads[t].Idle? then Begins(op, |s.log|) else Quiet;
  }

  lemma {:induction false} InvGivesInStep(s: State, t: nat)
    requires Inv(s) && t < |s.threads|
    ensures InStep(s, t)
  {
  }

  lemma {:induction false} NextHistory(s: State, step: Step) returns (move: Move)
    requires InStep(s, step.thread)
    ensures HistoryMoves(s, Next(s, step), step.thread, move)
  {
    hide PushStep, PopStep, ReclaimStep, Begin, CallOk, HistoryMoves;
    var t := step.thread;
    match step
    case CallPush(_, value) => move := BeginHistory(s, t, PushStart(value), Push(value));
    case CallPop(_) => move := BeginHistory(s, t, PopCount, Pop(false));
    case Run(_, slot, spurious) =>
      if Pushes(s.threads[t]) {
        move := PushHistory(s, t, slot, spurious);
      } else if Searches(s.threads[t]) {
        move := PopHistory(s, t, spurious);
      } else {
        move := ReclaimHistory(s, t, spurious);
      }
  }

  lemma {:induction false} NoThreadNoStep(s: State, step: Step)
    requires step.thread >= |s.threads| || step.thread >= |s.calls|
    ensures Next(s, step) == s
  {
  }

  /** Every step keeps effects and calls one to one. */
  lemma {:induction false} NextKeepsOneToOne(s: State, step: Step)
    requires Inv(s) && OneToOne(|s.log|, s.calls, s.completed)
    ensures var s' := Next(s, step); OneToOne(|s'.log|, s'.calls, s'.completed)
  {
    hide Inv, Next, OneToOne, InStep, Moves;
    if step.thread >= |s.threads| {
      NoThreadNoStep(s, step);
    } else {
      InvGivesInStep(s, step.thread);
      var move := NextHistory(s, step);
      var s' := Next(s, step);
      MoveKeepsOneToOne(
        |s.log|, s.calls, s.completed, |s'.log|, s'.calls, s'.completed, step.thread, move);
    }
  }

  // ---------- memory ----------

  predicate InHands(threads: seq<Pc>, a: Addr) {
    exists t :: 0 <= t < |threads| && Owns(threads[t]) == a
  }

  /** The nodes that nobody can reach any more. */
  function Lost(s: State): set<Addr> {
    set a | a in s.heap && a !in s.chain && !InHands(s.threads, a)
  }

  /** Before a pop decides about its node, it has taken the value out of it. */
  predicate Emptied(heap: map<Addr, Node>, pc: Pc) {
    pc.PopCheck? && pc.top != 0 ==> pc.top in heap && heap[pc.top].data == 0
  }

  /** Each pop that went uncounted has left at most its own node behind, and without its value. */
  predicate Accounted(s: State) {
    && 0 !in s.heap && |Lost(s)| <= s.leaked
    && (forall a :: a in Lost(s) ==> s.heap[a].data == 0)
    && (forall t :: 0 <= t < |s.threads| ==> Emptied(s.heap, s.threads[t]))
  }

  /** The mover leaves alone what is neither linked nor its own, and what it no longer has is linked,
      freed, or left behind by a pop that goes uncounted. */
  predicate LetsGo(s: State, s': State, t: nat)
    requires t < |s.threads| == |s'.threads|
  {
    var own, own' := Owns(s.threads[t]), Owns(s'.threads[t]);
    && s'.threads == s.threads[t := s'.threads[t]]
    && (0 in s'.heap ==> 0 in s.heap) && s.leaked <= s'.leaked
    && Emptied(s'.heap, s'.threads[t])
    && (forall a :: a in s.heap && a !in s.chain && a != own ==>
          a in s'.heap && s'.heap[a] == s.heap[a] && a !in s'.chain)
    && (forall a :: a in s'.heap && a !in s'.chain && a != own' ==> a in s.heap && a !in s.chain)
    && (own != 0 && own != own' && own in s'.heap && own !in s'.chain ==>
          s'.leaked == s.leaked + 1 && s'.heap[own].data == 0)
  }

  lemma {:induction false} LostKept(s: State, s': State, t: nat, a: Addr)
    requires t < |s.threads| == |s'.threads| && LetsGo(s, s', t) && a in Lost(s') && 0 !in s.heap
    ensures a in Lost(s) || (a == Owns(s.threads[t]) && s'.leaked == s.leaked + 1 && s'.heap[a].data == 0)
  {
    hide Emptied, Owns;
    assert 0 <= t < |s'.threads|;
    if a != Owns(s.threads[t]) {
      forall u | 0 <= u < |s.threads| ensures Owns(s.threads[u]) != a {
        assert u == t || Owns(s'.threads[u]) == Owns(s.threads[u]);
      }
    }
  }

  lemma {:induction false} LostCounted(lost: set<Addr>, lost': set<Addr>, own: Addr)
    requires forall a :: a in lost' ==> a in lost || a == own
    ensures |lost'| <= |lost| + if own in lost' then 1 else 0
  {
    Subset(lost' - {own}, lost);
  }

  lemma {:induction false} Subset(a: set<Addr>, b: set<Addr>)
    requires a <= b
    ensures |a| <= |b|
    decreases |a|
  {
    if a != {} {
      var x :| x in a;
      Subset(a - {x}, b - {x});
    }
  }

  lemma {:induction false} EmptiedKept(s: State, s': State, t: nat, u: nat)
    requires t < |s.threads| == |s'.threads| && LetsGo(s, s', t) && u < |s.threads| && Emptied(s.heap, s.threads[u])
    requires u != t ==> ThreadOk(s.heap, s.chain, s.threads[u]) && Apart(s.threads[t], s.threads[u])
    ensures Emptied(s'.heap, s'.threads[u])
  {
    hide Hidden, Watches;
  }

  lemma {:induction false} AccountedKept(s: State, s': State, t: nat)
    requires Inv(s) && Accounted(s) && t < |s.threads| == |s'.threads| && LetsGo(s, s', t)
    ensures Accounted(s')
  {
    hide ThreadOk, Linked, Apart, Counted, CallsOk, Replay, Values, Emptied, Owns;
    var own := Owns(s.threads[t]);
    forall a | a in Lost(s')
      ensures a in Lost(s) || (a == own && s'.leaked == s.leaked + 1)
      ensures s'.heap[a].data == 0
    {
      LostKept(s, s', t, a);
      assert 0 <= t < |s.threads|;
    }
    LostCounted(Lost(s), Lost(s'), own);
    if own in Lost(s') {
      LostKept(s, s', t, own);
      assert 0 <= t < |s.threads|;
    }
    forall u | 0 <= u < |s.threads| ensures Emptied(s'.heap, s'.threads[u]) {
      EmptiedKept(s, s', t, u);
    }
  }

  lemma {:induction false} LinkLetsGo(s: State, t: nat, slot: Addr, spurious: bool)
    requires t < |s.threads| == |s.calls| && ThreadOk(s.heap, s.chain, s.threads[t])
    requires Pushes(s.threads[t]) && |PushStep(s, t, slot, spurious).chain| == |s.chain|
    ensures LetsGo(s, PushStep(s, t, slot, spurious), t)
  {
    assert s.threads[t := s.threads[t]] == s.threads;
  }

  lemma {:induction false} PublishLetsGo(s: State, s': State, t: nat)
    requires t < |s.threads| == |s.calls| && s.threads[t].PushCas? && s'.chain == [s.threads[t].node] + s.chain
    requires s'.heap == s.heap && s'.leaked == s.leaked
    requires s'.threads == s.threads[t := PushDone(s.threads[t].value)]
    ensures LetsGo(s, s', t)
  {
    var n := s.threads[t].node;
    assert forall a :: a in s'.chain <==> a == n || a in s.chain;
  }

  lemma {:induction false} PushLetsGo(s: State, t: nat, slot: Addr, spurious: bool)
    requires t < |s.threads| == |s.calls| && ThreadOk(s.heap, s.chain, s.threads[t]) && Pushes(s.threads[t])
    ensures LetsGo(s, PushStep(s, t, slot, spurious), t)
  {
    hide LetsGo, ThreadOk;
    if |PushStep(s, t, slot, spurious).chain| == |s.chain| {
      LinkLetsGo(s, t, slot, spurious);
    } else {
      PublishLetsGo(s, PushStep(s, t, slot, spurious), t);
    }
  }

  lemma {:induction false} LoadLetsGo(s: State, t: nat)
    requires t < |s.threads| == |s.calls| && Owns(s.threads[t]) == 0
    ensures LetsGo(s, LoadHead(s, t), t)
  {
  }

  lemma {:induction false} UnlinkLetsGo(s: State, s': State, t: nat)
    requires t < |s.threads| == |s.calls| && s.threads[t].PopCas? && s.chain != [] && s.chain[0] == s.head
    requires s'.threads == s.threads[t := PopTake(s.head)] && s'.heap == s.heap && s'.leaked == s.leaked
    requires s'.chain == Rest(s.chain)
    ensures LetsGo(s, s', t)
  {
    assert s.chain == [s.head] + Rest(s.chain);
    assert forall a :: a in s.chain <==> a == s.head || a in Rest(s.chain);
  }

  lemma {:induction false} SearchLetsGo(s: State, t: nat, spurious: bool)
    requires t < |s.threads| == |s.calls| && ThreadOk(s.heap, s.chain, s.threads[t])
    requires Emptied(s.heap, s.threads[t])
    requires Searches(s.threads[t]) && !s.threads[t].PopLoad? && !s.threads[t].PopCas?
    ensures LetsGo(s, PopStep(s, t, spurious), t)
  {
    hide LoadHead, Log, Rest;
  }

  lemma {:induction false} PopLetsGo(s: State, t: nat, spurious: bool)
    requires t < |s.threads| == |s.calls| && ThreadOk(s.heap, s.chain, s.threads[t]) && Searches(s.threads[t])
    requires Linked(s.heap, s.head, s.chain) && Emptied(s.heap, s.threads[t])
    ensures LetsGo(s, PopStep(s, t, spurious), t)
  {
    hide LetsGo, LoadHead, Linked, Emptied, Rest;
    match s.threads[t]
    case PopLoad => LoadLetsGo(s, t);
    case PopCas(top, _) =>
      if s.head != top || spurious {
        LoadLetsGo(s, t);
      } else {
        UnlinkLinked(s.heap, s.head, s.chain);
        UnlinkLetsGo(s, PopStep(s, t, spurious), t);
      }
    case _ => SearchLetsGo(s, t, spurious);
  }

  lemma {:induction false} ReclaimLetsGo(s: State, t: nat, spurious: bool)
    requires t < |s.threads| == |s.calls| && ThreadOk(s.heap, s.chain, s.threads[t])
    requires !Pushes(s.threads[t]) && !Searches(s.threads[t])
    ensures LetsGo(s, ReclaimStep(s, t, spurious), t)
  {
    hide LetsGo, Return, ThreadOk;
    if s.threads[t].PopDone? {
      ReturnLetsGo(s, t, if s.threads[t].found then Popped(t, s.threads[t].result) else FoundEmpty(t));
    } else {
      FreeLetsGo(s, t, spurious);
    }
  }

  lemma {:induction false} ReturnLetsGo(s: State, t: nat, event: Event)
    requires t < |s.threads| == |s.calls| && Owns(s.threads[t]) == 0
    ensures LetsGo(s, Return(s, t, event), t)
  {
  }

  lemma {:induction false} FreeLetsGo(s: State, t: nat, spurious: bool)
    requires t < |s.threads| == |s.calls| && ThreadOk(s.heap, s.chain, s.threads[t])
    requires !Pushes(s.threads[t]) && !Searches(s.threads[t]) && !s.threads[t].PopDone?
    ensures LetsGo(s, ReclaimStep(s, t, spurious), t)
  {
    hide Return;
    assert s.threads[t := s.threads[t]] == s.threads;
  }

  lemma {:induction false} BeginLetsGo(s: State, t: nat, pc: Pc, op: Operation)
    requires t < |s.threads| == |s.calls| && (pc.PushStart? || pc.PopCount?) && Emptied(s.heap, s.threads[t])
    ensures LetsGo(s, Begin(s, t, pc, op), t)
  {
    assert s.threads[t := s.threads[t]] == s.threads;
  }

  lemma {:induction false} NextLetsGo(s: State, step: Step)
    requires Inv(s) && Accounted(s) && step.thread < |s.threads| == |s.calls| == |Next(s, step).threads|
    ensures LetsGo(s, Next(s, step), step.thread)
  {
    hide Counted, Linked, CallOk, CompletedOk, Replay, Values, ThreadOk, Apart, Emptied, PushStep, PopStep, ReclaimStep,
      Begin, LetsGo, Lost;
    var t := step.thread;
    assert ThreadOk(s.heap, s.chain, s.threads[t]) && Emptied(s.heap, s.threads[t]);
    match step
    case CallPush(_, value) => BeginLetsGo(s, t, PushStart(value), Push(value));
    case CallPop(_) => BeginLetsGo(s, t, PopCount, Pop(false));
    case Run(_, slot, spurious) =>
      if Pushes(s.threads[t]) {
        PushLetsGo(s, t, slot, spurious);
      } else if Searches(s.threads[t]) {
        PopLetsGo(s, t, spurious);
      } else {
        ReclaimLetsGo(s, t, spurious);
      }
  }

  lemma {:induction false} InvGivesLengths(s: State)
    requires Inv(s)
    ensures |s.calls| == |s.threads|
  {
  }

  lemma {:induction false} NextKeepsAccounted(s: State, step: Step)
    requires Inv(s) && Accounted(s)
    ensures Accounted(Next(s, step))
  {
    hide Inv, Next, Accounted, LetsGo;
    NextGrows(s, step);
    InvGivesLengths(s);
    if step.thread < |s.threads| {
      NextLetsGo(s, step);
      AccountedKept(s, Next(s, step), step.thread);
    } else {
      NoThreadNoStep(s, step);
    }
  }

  // ---------- all that every run keeps ----------

  const MOST_POPS := 0x1_0000_0000

  /** What holds of every state that a run can come to. */
  predicate Safe(s: State) {
    && |s.calls| == |s.threads|
    && (s.pops <= MOST_POPS ==> Inv(s) && OneToOne(|s.log|, s.calls, s.completed) && Accounted(s))
  }

  lemma {:induction false} NextKeepsSafe(s: State, step: Step)
    requires Safe(s)
    ensures Safe(Next(s, step))
  {
    hide Inv, Next, OneToOne, Accounted;
    NextGrows(s, step);
    if Next(s, step).pops <= MOST_POPS {
      NextKeepsInv(s, step);
      NextKeepsOneToOne(s, step);
      NextKeepsAccounted(s, step);
    }
  }

  lemma {:induction false} RunIsSafe(n: nat, steps: seq<Step>)
    ensures Safe(RunAll(Init(n), steps))
  {
    InitOk(n);
    hide Safe, Next;
    forall s, step | Safe(s) ensures Safe(Next(s, step)) {
      NextKeepsSafe(s, step);
    }
    assert Safe(Init(n)) by { InitIsSafe(n); }
    Runs.RunKeeps(Next, Safe, Init(n), steps);
  }

  lemma {:induction false} InitIsSafe(n: nat)
    ensures Safe(Init(n))
  {
    hide Inv;
    InitOk(n);
  }

  /** No run with at most 2^32 pops touches a freed node; the counter is the number of poppers in
      flight plus the pops that found it other than 1, and the list of pending nodes stays empty. */
  lemma {:induction false} NoFreedNodeTouched(n: nat, steps: seq<Step>)
    ensures var s := RunAll(Init(n), steps); s.pops <= 0x1_0000_0000 ==>
      !s.fault && s.pending == 0 && s.count == (Poppers(s.threads) + s.leaked) % 0x1_0000_0000
  {
    RunIsSafe(n, steps);
  }

  /** When no call is under way, the nodes are those that are linked and, without their values, at most one
      for each pop that has gone uncounted. */
  lemma {:induction false} NodesAccounted(n: nat, steps: seq<Step>)
    requires var s := RunAll(Init(n), steps);
      s.pops <= 0x1_0000_0000 && forall t :: 0 <= t < |s.threads| ==> s.threads[t].Idle?
    ensures var s := RunAll(Init(n), steps);
      && s.heap.Keys == (set a | a in s.chain) + Lost(s) && |Lost(s)| <= s.leaked
      && (forall a :: a in s.chain ==> a !in Lost(s)) && (forall a :: a in Lost(s) ==> s.heap[a].data == 0)
  {
    hide RunAll, Init, Replay, Values, CallsOk, OneToOne, Counted;
    RunIsSafe(n, steps);
    var s := RunAll(Init(n), steps);
    NothingInHands(s);
  }

  lemma {:induction false} NothingInHands(s: State)
    requires Accounted(s) && forall t :: 0 <= t < |s.threads| ==> s.threads[t].Idle?
    ensures forall a :: a in s.heap && a !in s.chain ==> a in Lost(s)
  {
  }

  /** When a pop's exchange can succeed, the link it read earlier is still the link of the top node,
      even if that address was freed and used again in the meantime. */
  lemma {:induction false} NoStaleLink(s: State, t: nat)
    requires Inv(s) && t < |s.threads| && s.threads[t].PopCas? && s.head == s.threads[t].top
    ensures s.chain != [] && s.chain[0] == s.head && s.head in s.heap
    ensures s.threads[t].next == s.heap[s.head].next == At(s.chain, 1)
  {
  }

  /** A node is freed only if nobody else can reach it: it is in no chain, no other thread holds it. */
  lemma {:induction false} FreedAlone(s: State, t: nat, u: nat)
    requires Inv(s) && t < |s.threads| && s.threads[t].PopDelete? && s.threads[t].top != 0
    requires u < |s.threads| && u != t
    ensures s.threads[t].top in s.heap && s.threads[t].top !in s.chain
    ensures Owns(s.threads[u]) != s.threads[t].top && Watches(s.threads[u]) != s.threads[t].top
  {
    assert ThreadOk(s.heap, s.chain, s.threads[t]) && Apart(s.threads[t], s.threads[u]);
  }

  /** The log is a run of a last-in first-out stack that ends with the values now linked. Every call that
      has returned took effect between its start and its end, with the result it returned, one in
      progress has taken effect since its start or not at all, and every entry of the log is the effect
      of exactly one of them. */
  lemma {:induction false} Linearizable(n: nat, steps: seq<Step>)
    ensures var s := RunAll(Init(n), steps); s.pops <= 0x1_0000_0000 ==>
      && Linked(s.heap, s.head, s.chain) && Replay(Stack, s.log) == Legal(Values(s.heap, s.chain))
      && CallsOk(s) && OneToOne(|s.log|, s.calls, s.completed)
  {
    hide OneToOne, Linked, Replay, CallsOk, Values;
    RunIsSafe(n, steps);
  }

  /** So no value is popped twice or lost: when all calls have returned, what they say they have pushed is
      what they say they have popped and what is linked. */
  lemma {:induction false} NothingLost(n: nat, steps: seq<Step>)
    requires var s := RunAll(Init(n), steps);
      s.pops <= 0x1_0000_0000 && forall t :: 0 <= t < |s.threads| ==> s.threads[t].Idle?
    ensures var s := RunAll(Init(n), steps);
      && multiset(Reports(s.completed)) == multiset(s.log)
      && Linked(s.heap, s.head, s.chain)
      && multiset(PushedIn(s.log)) == multiset(PoppedIn(s.log)) + multiset(Values(s.heap, s.chain))
  {
    hide OneToOne, Linked, Replay, Values, Reports, PushedIn, PoppedIn, CompletedOk;
    Linearizable(n, steps);
    var s := RunAll(Init(n), steps);
    StackLosesNothing(s.log);
    ReportsAreLog(s.log, s.calls, s.completed);
  }

  // ---------- lock-freedom ----------

  /** What the thread has read is still `head`, so that its exchange does not fail. */
  predicate UpToDate(heap: map<Addr, Node>, head: Addr, pc: Pc) {
    match pc
    case PushCas(n, _) => n in heap && heap[n].next == head
    case PopLoop(top) => top == head
    case PopCas(top, _) => top == head
    case _ => true
  }

  /** Without a spurious failure, the exchange would fail now. */
  predicate ExchangeFails(s: State, t: nat)
    requires t < |s.threads|
  {
    (s.threads[t].PushCas? || s.threads[t].PopCas?) && !UpToDate(s.heap, s.head, s.threads[t])
  }

  /** What a step of thread `t` leaves of what another thread has read. */
  predicate LeavesRead(s: State, s': State, u: nat) {
    && u < |s.threads| == |s'.threads| && s'.threads[u] == s.threads[u] && s'.head == s.head
    && (s.threads[u].PushCas? && s.threads[u].node in s.heap ==>
          s.threads[u].node in s'.heap && s'.heap[s.threads[u].node].next == s.heap[s.threads[u].node].next)
  }

  predicate Bystander(s: State, t: nat, u: nat) {
    && t < |s.threads| == |s.calls| && u < |s.threads| && u != t
    && ThreadOk(s.heap, s.chain, s.threads[t]) && ThreadOk(s.heap, s.chain, s.threads[u])
    && Apart(s.threads[t], s.threads[u]) && Apart(s.threads[u], s.threads[t])
  }

  lemma {:induction false} PushLeavesRead(s: State, t: nat, u: nat, slot: Addr, spurious: bool)
    requires Bystander(s, t, u) && |PushStep(s, t, slot, spurious).log| == |s.log|
    ensures LeavesRead(s, PushStep(s, t, slot, spurious), u)
  {
  }

  lemma {:induction false} LoadLeavesRead(s: State, t: nat, u: nat)
    requires t < |s.threads| == |s.calls| && u < |s.threads| && u != t
    ensures LeavesRead(s, LoadHead(s, t), u)
  {
  }

  lemma {:induction false} PopLeavesRead(s: State, t: nat, u: nat, spurious: bool)
    requires Bystander(s, t, u) && |PopStep(s, t, spurious).log| == |s.log|
    ensures LeavesRead(s, PopStep(s, t, spurious), u)
  {
    hide LoadHead, Rest;
    LoadLeavesRead(s, t, u);
  }

  lemma {:induction false} ReclaimLeavesRead(s: State, t: nat, u: nat, spurious: bool)
    requires Bystander(s, t, u) && |ReclaimStep(s, t, spurious).log| == |s.log|
    ensures LeavesRead(s, ReclaimStep(s, t, spurious), u)
  {
  }

  lemma {:induction false} Untouched(s: State, u: nat)
    requires u < |s.threads|
    ensures LeavesRead(s, s, u)
  {
  }

  lemma {:induction false} CallLeavesRead(s: State, step: Step, u: nat)
    requires !step.Run? && u < |s.threads| && u != step.thread
    ensures LeavesRead(s, Next(s, step), u)
  {
  }

  lemma {:induction false} InvGivesBystander(s: State, t: nat, u: nat)
    requires Inv(s) && t < |s.threads| && u < |s.threads| && t != u
    ensures Bystander(s, t, u)
  {
  }

  /** A step of another thread that has no effect leaves what a thread has read as it was. */
  lemma {:induction false} NextLeavesRead(s: State, step: Step, u: nat)
    requires Inv(s) && u < |s.threads| && u != step.thread && |Next(s, step).log| == |s.log|
    ensures LeavesRead(s, Next(s, step), u)
  {
    var t := step.thread;
    hide Inv, Bystander, PushStep, PopStep, ReclaimStep, LeavesRead;
    InvGivesLengths(s);
    Untouched(s, u);
    if t < |s.threads| {
      InvGivesBystander(s, t, u);
      if step.Run? {
        if Pushes(s.threads[t]) {
          PushLeavesRead(s, t, u, step.slot, step.spurious);
        } else if Searches(s.threads[t]) {
          PopLeavesRead(s, t, u, step.spurious);
        } else {
          ReclaimLeavesRead(s, t, u, step.spurious);
        }
      } else {
        CallLeavesRead(s, step, u);
      }
    }
  }

  lemma {:induction false} OwnPushStaysUpToDate(s: State, t: nat, slot: Addr, spurious: bool)
    requires Alone(s, t) && UpToDate(s.heap, s.head, s.threads[t])
    requires |PushStep(s, t, slot, spurious).log| == |s.log|
    ensures var s' := PushStep(s, t, slot, spurious); UpToDateIn(s', t)
  {
    hide Linked;
  }

  lemma {:induction false} OwnPopStaysUpToDate(s: State, t: nat, spurious: bool)
    requires Alone(s, t) && UpToDate(s.heap, s.head, s.threads[t]) && |PopStep(s, t, spurious).log| == |s.log|
    ensures UpToDateIn(PopStep(s, t, spurious), t)
  {
    hide Linked;
  }

  lemma {:induction false} OwnReclaimStaysUpToDate(s: State, t: nat, spurious: bool)
    requires Alone(s, t) && UpToDate(s.heap, s.head, s.threads[t])
    ensures UpToDateIn(ReclaimStep(s, t, spurious), t)
  {
    hide Linked;
  }

  predicate UpToDateIn(s: State, t: nat) {
    t < |s.threads| && UpToDate(s.heap, s.head, s.threads[t])
  }

  /** Thread `t`, its memory and the stack are in order. */
  predicate Alone(s: State, t: nat) {
    t < |s.threads| == |s.calls| && ThreadOk(s.heap, s.chain, s.threads[t]) && Linked(s.heap, s.head, s.chain)
  }

  lemma {:induction false} InvGivesAlone(s: State, t: nat)
    requires Inv(s) && t < |s.threads|
    ensures Alone(s, t)
  {
  }

  lemma {:induction false} OwnStaysUpToDate(s: State, step: Step)
    requires Inv(s) && UpToDateIn(s, step.thread) && |Next(s, step).log| == |s.log|
    ensures UpToDateIn(Next(s, step), step.thread)
  {
    hide Inv, Alone, PushStep, PopStep, ReclaimStep;
    var t := step.thread;
    InvGivesAlone(s, t);
    InvGivesLengths(s);
    if step.Run? {
      if Pushes(s.threads[t]) {
        OwnPushStaysUpToDate(s, t, step.slot, step.spurious);
      } else if Searches(s.threads[t]) {
        OwnPopStaysUpToDate(s, t, step.spurious);
      } else {
        OwnReclaimStaysUpToDate(s, t, step.spurious);
      }
    }
  }

  /** A step that has no effect leaves everyone as up to date as before. */
  lemma {:induction false} NextStaysUpToDate(s: State, step: Step, t: nat)
    requires Inv(s) && UpToDateIn(s, t) && |Next(s, step).log| == |s.log|
    ensures UpToDateIn(Next(s, step), t)
  {
    hide Inv, Next;
    if t == step.thread {
      OwnStaysUpToDate(s, step);
    } else {
      InvGivesAlone(s, t);
      NextLeavesRead(s, step, t);
    }
  }

  /** The thread reads `head`, first or after a failed exchange. */
  predicate ReadsHead(s: State, step: Step) {
    && step.Run? && step.thread < |s.threads|
    && match s.threads[step.thread]
       case PushLoad(_, _) => true
       case PushCas(n, _) => n in s.heap && (s.head != s.heap[n].next || step.spurious)
       case PopLoad => true
       case PopCas(top, _) => s.head != top || step.spurious
       case _ => false
  }

  lemma {:induction false} ReaderIsUpToDate(s: State, step: Step)
    requires Inv(s) && ReadsHead(s, step)
    ensures UpToDateIn(Next(s, step), step.thread)
  {
    hide Linked;
    assert Alone(s, step.thread);
  }

  /** Up to date until there has been one more effect. */
  predicate UpToDateUntil(s: State, t: nat, effects: nat) {
    && Safe(s) && t < |s.threads| && effects <= |s.log|
    && (s.pops <= MOST_POPS && |s.log| == effects ==> UpToDateIn(s, t))
  }

  lemma {:induction false} NextKeepsUpToDate(s: State, step: Step, t: nat, effects: nat)
    requires UpToDateUntil(s, t, effects)
    ensures UpToDateUntil(Next(s, step), t, effects)
  {
    hide Inv, Next, UpToDateIn;
    NextKeepsSafe(s, step);
    NextGrows(s, step);
    if Next(s, step).pops <= MOST_POPS && |Next(s, step).log| == effects {
      NextStaysUpToDate(s, step, t);
    }
  }

  /** An exchange fails without being spurious only if some operation has taken effect since the
      thread read `head`. */
  lemma {:induction false} ExchangeFailsOnlyAfterEffect(s: State, read: Step, steps: seq<Step>)
    requires Safe(s) && s.pops <= MOST_POPS && ReadsHead(s, read)
    ensures var s', t := Next(s, read), read.thread;
      var later := RunAll(s', steps);
      t < |later.threads| && (later.pops <= MOST_POPS && ExchangeFails(later, t) ==> |later.log| > |s'.log|)
  {
    hide Inv, Next, Safe, UpToDate, ReadsHead;
    var s', t := Next(s, read), read.thread;
    SafeGivesInv(s);
    ReaderIsUpToDate(s, read);
    NextKeepsSafe(s, read);
    forall u, step | UpToDateUntil(u, t, |s'.log|) ensures UpToDateUntil(Next(u, step), t, |s'.log|) {
      NextKeepsUpToDate(u, step, t, |s'.log|);
    }
    Runs.RunKeeps(Next, (u: State) => UpToDateUntil(u, t, |s'.log|), s', steps);
  }

  lemma {:induction false} SafeGivesInv(s: State)
    requires Safe(s) && s.pops <= MOST_POPS
    ensures Inv(s)
  {
  }

  /** The number of its own steps that take a thread to its next effect, at most. */
  function Distance(heap: map<Addr, Node>, head: Addr, pc: Pc): nat {
    var again := if UpToDate(heap, head, pc) then 0 else 1;
    match pc
    case PushCas(_, _) => 1 + again
    case PushLoad(_, _) => 2
    case PushStart(_) => 3
    case PopCas(_, _) => 1 + 2 * again
    case PopLoop(top) => if top == 0 then 13 else 2 + 2 * again
    case PopLoad => 3
    case PopCount => 4
    case Idle => 5
    case PushDone(_) => 6
    case PopDone(_, _) => 6
    case PopDelete(_, _) => 7
    case DeleteNodes(_, _, _) => 8
    case PopDecrement(_, _, _) => 9
    case PopExchange(_, _) => 10
    case PopCheck(_, _) => 11
    case PopTake(_) => 12
    case _ => 0
  }

  function DistanceOf(s: State): nat -> int {
    (t: nat) => if t < |s.threads| then Distance(s.heap, s.head, s.threads[t]) else 0
  }

  function Distances(s: State): int {
    Runs.Total(|s.threads|, DistanceOf(s))
  }

  /** No exchange fails spuriously. */
  predicate Calm(step: Step) {
    step.Run? ==> !step.spurious
  }

  /** A step of thread `t` takes effect, or brings the thread closer to its next effect. */
  predicate Nears(s: State, s': State, t: nat) {
    && t < |s.threads| == |s'.threads|
    && (|s'.log| == |s.log| + 1 ||
        (|s'.log| == |s.log| && Distance(s'.heap, s'.head, s'.threads[t]) < Distance(s.heap, s.head, s.threads[t])))
  }

  lemma {:induction false} PushNears(s: State, t: nat, slot: Addr)
    requires Alone(s, t) && Pushes(s.threads[t]) && PushStep(s, t, slot, false) != s
    ensures Nears(s, PushStep(s, t, slot, false), t)
  {
  }

  lemma {:induction false} PopNears(s: State, t: nat)
    requires Alone(s, t) && Searches(s.threads[t])
    ensures Nears(s, PopStep(s, t, false), t)
  {
    hide LoadHead, Linked, Distance, Nears;
    AllocatedWatched(s, t);
    match s.threads[t]
    case PopLoad => LoadNears(s, t);
    case PopCas(top, next) =>
      if s.head == top {
        UnlinkNears(s, t);
      } else {
        LoadNears(s, t);
      }
    case _ => SearchNears(s, t);
  }

  lemma {:induction false} AllocatedWatched(s: State, t: nat)
    requires Alone(s, t)
    ensures Watches(s.threads[t]) != 0 ==> Watches(s.threads[t]) in s.heap
    ensures Owns(s.threads[t]) != 0 ==> Owns(s.threads[t]) in s.heap
    ensures s.threads[t].PopCas? ==> s.threads[t].top != 0
  {
    hide Linked;
  }

  /** Reading `head` again, after an exchange that has failed, or noticing that the stack is empty. */
  lemma {:induction false} LoadNears(s: State, t: nat)
    requires t < |s.threads| && t < |s.calls|
    requires s.threads[t].PopLoad? || (s.threads[t].PopCas? && s.head != s.threads[t].top)
    ensures Nears(s, LoadHead(s, t), t)
  {
  }

  lemma {:induction false} UnlinkNears(s: State, t: nat)
    requires t < |s.threads| && t < |s.calls| && s.threads[t].PopCas? && s.head == s.threads[t].top
    requires s.head in s.heap
    ensures Nears(s, PopStep(s, t, false), t)
  {
    hide LoadHead, Distance, Rest;
  }

  lemma {:induction false} SearchNears(s: State, t: nat)
    requires t < |s.threads| && t < |s.calls| && Searches(s.threads[t])
    requires !s.threads[t].PopLoad? && !s.threads[t].PopCas?
    requires Watches(s.threads[t]) != 0 ==> Watches(s.threads[t]) in s.heap
    requires Owns(s.threads[t]) != 0 ==> Owns(s.threads[t]) in s.heap
    ensures Nears(s, PopStep(s, t, false), t)
  {
    hide LoadHead;
  }

  lemma {:induction false} ReclaimNears(s: State, t: nat)
    requires Alone(s, t) && ReclaimStep(s, t, false) != s
    ensures Nears(s, ReclaimStep(s, t, false), t)
  {
    hide Linked, UpToDate, Watches;
  }

  lemma {:induction false} NextNears(s: State, step: Step)
    requires Inv(s) && Calm(step) && Next(s, step) != s
    ensures Nears(s, Next(s, step), step.thread)
  {
    hide Inv, Alone, PushStep, PopStep, ReclaimStep;
    var t := step.thread;
    InvGivesLengths(s);
    InvGivesAlone(s, t);
    if step.Run? {
      if Pushes(s.threads[t]) {
        PushNears(s, t, step.slot);
      } else if Searches(s.threads[t]) {
        PopNears(s, t);
      } else {
        ReclaimNears(s, t);
      }
    }
  }

  lemma {:induction false} NextKeepsDistance(s: State, step: Step, u: nat)
    requires Inv(s) && u < |s.threads| && u != step.thread && |Next(s, step).log| == |s.log|
    ensures |Next(s, step).threads| == |s.threads| && DistanceOf(Next(s, step))(u) == DistanceOf(s)(u)
  {
    hide Next, Inv;
    InvGivesAlone(s, u);
    NextLeavesRead(s, step, u);
  }

  /** A step without effect brings the threads closer to their next effects together. */
  lemma {:induction false} NextLowersDistances(s: State, step: Step)
    requires Inv(s) && Calm(step) && Next(s, step) != s && |Next(s, step).log| == |s.log|
    ensures Distances(Next(s, step)) < Distances(s)
  {
    hide Inv, Next, Distance, Calm;
    var s', t := Next(s, step), step.thread;
    NextNears(s, step);
    forall u: nat | u < |s.threads| && u != t ensures DistanceOf(s')(u) == DistanceOf(s)(u) {
      NextKeepsDistance(s, step, u);
    }
    Runs.TotalChange(|s.threads|, DistanceOf(s), DistanceOf(s'), t);
  }

  lemma {:induction false} FirstDistancesBounded(s: State, n: nat)
    ensures 0 <= Runs.Total(n, DistanceOf(s)) <= 13 * n
  {
    if n > 0 {
      FirstDistancesBounded(s, n - 1);
    }
  }

  lemma {:induction false} DistancesBounded(s: State)
    ensures 0 <= Distances(s) <= 13 * |s.threads|
  {
    FirstDistancesBounded(s, |s.threads|);
  }

  predicate AllCalm(steps: seq<Step>) {
    forall i :: 0 <= i < |steps| ==> Calm(steps[i])
  }

  /** The steps that `n` threads have for so many effects. */
  function StepsFor(n: nat, effects: int): int {
    (13 * n + 1) * effects
  }

  lemma {:induction false} NoEffects(n: nat)
    ensures StepsFor(n, 0) == 0
  {
  }

  /** An effect pays for the distances after it. */
  lemma {:induction false} OneEffectPays(n: nat, changes: int, later: int, effects: int)
    requires changes <= StepsFor(n, later) + 13 * n && later < effects
    ensures changes + 1 <= StepsFor(n, effects)
  {
    var a, more := 13 * n + 1, effects - later - 1;
    assert StepsFor(n, effects) == a * later + a + a * more;
    assert a * more >= 0;
  }

  function Changed(s: State, step: Step): nat {
    if Next(s, step) == s then 0 else 1
  }

  /** The steps of a run that change the state. */
  function Changes(s: State, steps: seq<Step>): nat {
    Runs.Changes(Next, s, steps)
  }

  lemma {:induction false} FirstStep(s: State, steps: seq<Step>)
    ensures steps == [] ==> RunAll(s, steps) == s && Changes(s, steps) == 0
    ensures steps != [] ==>
      && RunAll(s, steps) == RunAll(Next(s, steps[0]), steps[1..])
      && Changes(s, steps) == Changed(s, steps[0]) + Changes(Next(s, steps[0]), steps[1..])
  {
    hide Next;
  }

  lemma {:induction false} OthersCalm(steps: seq<Step>)
    requires AllCalm(steps) && steps != []
    ensures Calm(steps[0]) && AllCalm(steps[1..])
  {
  }

  /** Some operation takes effect at least once in every 13 n + 1 steps that change anything, where n
      is the number of threads, unless an exchange fails spuriously. */
  lemma {:induction false} LockFree(s: State, steps: seq<Step>)
    requires Safe(s) && AllCalm(steps) && RunAll(s, steps).pops <= MOST_POPS
    ensures Changes(s, steps) <= StepsFor(|s.threads|, |RunAll(s, steps).log| - |s.log|) + Distances(s)
    ensures Distances(s) <= 13 * |s.threads|
    decreases |steps|
  {
    hide Calm, AllCalm, Safe, Next, Inv, StepsFor, Distances, RunAll, Changes, Changed;
    DistancesBounded(s);
    FirstStep(s, steps);
    if steps == [] {
      NoEffects(|s.threads|);
    } else {
      var s', rest := Next(s, steps[0]), steps[1..];
      OthersCalm(steps);
      NextGrows(s, steps[0]);
      PopsGrow(s', rest);
      LogGrows(s', rest);
      SafeGivesInv(s);
      NextKeepsSafe(s, steps[0]);
      LockFree(s', rest);
      StepPays(s, steps[0], Changes(s', rest), |RunAll(s', rest).log|);
    }
  }

  lemma {:induction false} StepPays(s: State, step: Step, changes: int, end: nat)
    requires Inv(s) && Calm(step)
    requires var s' := Next(s, step);
      && |s'.log| <= end && Distances(s') <= 13 * |s'.threads|
      && changes <= StepsFor(|s'.threads|, end - |s'.log|) + Distances(s')
    ensures changes + Changed(s, step) <= StepsFor(|s.threads|, end - |s.log|) + Distances(s)
  {
    hide Inv, Next, StepsFor, Distance, Calm;
    var s' := Next(s, step);
    DistancesBounded(s);
    NextGrows(s, step);
    if s' != s {
      if |s'.log| == |s.log| {
        NextLowersDistances(s, step);
      } else {
        OneEffectPays(|s.threads|, changes, end - |s'.log|, end - |s.log|);
      }
    }
  }

  lemma {:induction false} LogGrows(s: State, steps: seq<Step>)
    ensures |s.log| <= |RunAll(s, steps).log|
  {
    hide Next;
    forall t: State, step | |s.log| <= |t.log| ensures |s.log| <= |Next(t, step).log| {
      NextGrows(t, step);
    }
    Runs.RunKeeps(Next, (t: State) => |s.log| <= |t.log|, s, steps);
  }

  lemma {:induction false} PopsGrow(s: State, steps: seq<Step>)
    ensures s.pops <= RunAll(s, steps).pops
  {
    hide Next;
    forall t: State, step | s.pops <= t.pops ensures s.pops <= Next(t, step).pops {
      NextGrows(t, step);
    }
    Runs.RunKeeps(Next, (t: State) => s.pops <= t.pops, s, steps);
  }

  // ---------- one pop more ----------

  /** Thread 0 has read the top node, at address 1, and thread 1 is between calls. */
  predicate Held(s: State, top: Addr, count: nat, bound: Addr) {
    && |s.threads| == 2 && |s.calls| == 2 && s.threads[0] == PopLoop(1) && s.threads[1] == Idle
    && s.head == top && s.count == count && s.pending == 0 && !s.fault
    && 1 in s.heap && s.heap[1].next == 0
    && forall a :: a in s.heap ==> a < bound
  }

  /** Thread 1 is `i` steps into pushing a node at `n` on top of `top`, while thread 0 stays at `pc`. */
  predicate Pushing(s: State, i: nat, pc: Pc, n: Addr, top: Addr, count: nat) {
    && |s.threads| == 2 && |s.calls| == 2 && s.threads[0] == pc && s.count == count && s.pending == 0 && !s.fault
    && i <= 4 && s.threads[1] == [PushStart(0), PushLoad(n, 0), PushCas(n, 0), PushDone(0), Idle][i]
    && s.head == (if i < 3 then top else n)
    && (i == 0 ==> n !in s.heap) && (i > 0 ==> n in s.heap) && (i > 1 ==> s.heap[n].next == top)
  }

  lemma {:induction false} PushingGoesOn(s: State, i: nat, pc: Pc, n: Addr, top: Addr, count: nat)
    requires Pushing(s, i, pc, n, top, count) && i < 4 && n != 0
    ensures var r := Next(s, Run(1, n, false));
      && Pushing(r, i + 1, pc, n, top, count) && r.pops == s.pops
      && r.heap.Keys == s.heap.Keys + {n} && forall a :: a in s.heap && a != n ==> r.heap[a].next == s.heap[a].next
  {
  }

  lemma {:induction false} OnePush(s: State, pc: Pc, n: Addr, top: Addr, count: nat) returns (steps: seq<Step>)
    requires |s.threads| == 2 && |s.calls| == 2 && s.threads[0] == pc && s.threads[1] == Idle
    requires s.head == top && s.count == count && s.pending == 0 && !s.fault && n !in s.heap && n != 0
    ensures var r := RunAll(s, steps);
      && Pushing(r, 4, pc, n, top, count) && r.pops == s.pops
      && r.heap.Keys == s.heap.Keys + {n} && forall a :: a in s.heap ==> r.heap[a].next == s.heap[a].next
  {
    steps := Runs.Do(Next, s, [], CallPush(1, 0));
    hide Next;
    for i := 0 to 4
      invariant var r := RunAll(s, steps);
        && Pushing(r, i, pc, n, top, count) && r.pops == s.pops
        && r.heap.Keys == s.heap.Keys + (if i == 0 then {} else {n})
        && forall a :: a in s.heap ==> r.heap[a].next == s.heap[a].next
    {
      PushingGoesOn(RunAll(s, steps), i, pc, n, top, count);
      steps := Runs.Do(Next, s, steps, Run(1, n, false));
    }
  }

  /** Thread 1 is `i` steps into a pop of `top` that will find the counter other than 1. */
  predicate Leaking(s: State, i: nat, top: Addr, count: nat, bound: Addr) {
    && i <= 7 && Held(s.(threads := [PopLoop(1), Idle]), if i < 4 then top else 1,
         if i < 1 then count else (count + 1) % 0x1_0000_0000, bound)
    && |s.threads| == 2 && s.threads[0] == PopLoop(1)
    && (i < 5 ==> s.threads[1] == [PopCount, PopLoad, PopLoop(top), PopCas(top, 1), PopTake(top)][i])
    && (i == 5 ==> s.threads[1].PopCheck?) && (i == 6 ==> s.threads[1].PopDone?) && (i == 7 ==> s.threads[1] == Idle)
    && top in s.heap && s.heap[top].next == 1
  }

  lemma {:induction false} LeakingGoesOn(s: State, i: nat, top: Addr, count: nat, bound: Addr)
    requires Leaking(s, i, top, count, bound) && i < 7 && top != 0 && 0 < count < 0x1_0000_0000
    ensures Leaking(Next(s, Run(1, 0, false)), i + 1, top, count, bound)
    ensures Next(s, Run(1, 0, false)).pops == s.pops + if i == 0 then 1 else 0
  {
    hide Leaking, PopStep, ReclaimStep;
    if i < 6 {
      LeakingSearches(s, i, top, count, bound);
    } else {
      LeakingReturns(s, top, count, bound);
    }
  }

  lemma {:induction false} LeakingSearches(s: State, i: nat, top: Addr, count: nat, bound: Addr)
    requires Leaking(s, i, top, count, bound) && i < 6 && top != 0 && 0 < count < 0x1_0000_0000
    ensures |s.threads| == |s.calls| == 2 && Searches(s.threads[1]) && !Pushes(s.threads[1])
    ensures Leaking(PopStep(s, 1, false), i + 1, top, count, bound)
    ensures PopStep(s, 1, false).pops == s.pops + if i == 0 then 1 else 0
  {
    hide Rest;
  }

  lemma {:induction false} LeakingReturns(s: State, top: Addr, count: nat, bound: Addr)
    requires Leaking(s, 6, top, count, bound)
    ensures |s.threads| == |s.calls| == 2 && !Searches(s.threads[1]) && !Pushes(s.threads[1])
    ensures Leaking(ReclaimStep(s, 1, false), 7, top, count, bound) && ReclaimStep(s, 1, false).pops == s.pops
  {
  }

  /** A pop that finds the counter other than 1 leaves its node and its place in the counter behind. */
  lemma {:induction false} OneLeak(s: State, top: Addr, count: nat, bound: Addr) returns (steps: seq<Step>)
    requires 0 < count < 0x1_0000_0000
    requires Held(s, top, count, bound) && top != 0 && top in s.heap && s.heap[top].next == 1
    ensures var r := RunAll(s, steps);
      Held(r, 1, (count + 1) % 0x1_0000_0000, bound) && r.pops == s.pops + 1
  {
    steps := Runs.Do(Next, s, [], CallPop(1));
    hide Next;
    for i := 0 to 7
      invariant Leaking(RunAll(s, steps), i, top, count, bound)
      invariant RunAll(s, steps).pops == s.pops + if i < 1 then 0 else 1
    {
      LeakingGoesOn(RunAll(s, steps), i, top, count, bound);
      steps := Runs.Do(Next, s, steps, Run(1, 0, false));
    }
  }

  lemma {:induction false} ManyLeaks(s: State, n: nat, bound: Addr) returns (steps: seq<Step>, bound': Addr)
    requires Held(s, 1, 1, bound) && 1 < bound && n < 0x1_0000_0000
    ensures Held(RunAll(s, steps), 1, (1 + n) % 0x1_0000_0000, bound') && RunAll(s, steps).pops == s.pops + n
  {
    hide Next;
    steps, bound' := [], bound;
    for i := 0 to n
      invariant 1 < bound'
      invariant Held(RunAll(s, steps), 1, (1 + i) % 0x1_0000_0000, bound') && RunAll(s, steps).pops == s.pops + i
    {
      var more := OnePush(RunAll(s, steps), PopLoop(1), bound', 1, 1 + i);
      steps := Runs.Then(Next, s, steps, more);
      assert Held(RunAll(s, steps), bound', 1 + i, bound' + 1);
      more := OneLeak(RunAll(s, steps), bound', 1 + i, bound' + 1);
      steps := Runs.Then(Next, s, steps, more);
      bound' := bound' + 1;
    }
  }

  /** The counter has come back to 0: the next pop takes itself for the only one and frees the node
      that thread 0 is about to read. */
  predicate Freeing(s: State, i: nat) {
    && |s.threads| == 2 && |s.calls| == 2 && s.threads[0] == PopLoop(1) && s.pending == 0 && i <= 10
    && s.count == (if 1 <= i < 8 then 1 else 0)
    && (i < 5 ==> s.threads[1] == [PopCount, PopLoad, PopLoop(1), PopCas(1, 0), PopTake(1)][i])
    && (i == 5 ==> s.threads[1].PopCheck? && s.threads[1].top == 1)
    && (i == 6 ==> s.threads[1].PopExchange? && s.threads[1].top == 1)
    && (i == 7 ==> s.threads[1].PopDecrement? && s.threads[1].top == 1 && s.threads[1].nodes == 0)
    && (i == 8 ==> s.threads[1].DeleteNodes? && s.threads[1].top == 1 && s.threads[1].nodes == 0)
    && (i == 9 ==> s.threads[1].PopDelete? && s.threads[1].top == 1)
    && (i < 4 ==> s.head == 1)
    && (i < 10 ==> 1 in s.heap && s.heap[1].next == 0) && (i == 10 ==> 1 !in s.heap)
  }

  lemma {:induction false} FreeingGoesOn(s: State, i: nat)
    requires Freeing(s, i) && i < 10
    ensures Freeing(Next(s, Run(1, 0, false)), i + 1)
    ensures Next(s, Run(1, 0, false)).pops == s.pops + if i == 0 then 1 else 0
  {
    hide Freeing, PopStep, ReclaimStep;
    if i < 6 {
      FreeingSearches(s, i);
    } else {
      FreeingReclaims(s, i);
    }
  }

  lemma {:induction false} FreeingSearches(s: State, i: nat)
    requires Freeing(s, i) && i < 6
    ensures |s.threads| == |s.calls| == 2 && Searches(s.threads[1]) && !Pushes(s.threads[1])
    ensures Freeing(PopStep(s, 1, false), i + 1) && PopStep(s, 1, false).pops == s.pops + if i == 0 then 1 else 0
  {
    hide Rest;
  }

  lemma {:induction false} FreeingReclaims(s: State, i: nat)
    requires Freeing(s, i) && 6 <= i < 10
    ensures |s.threads| == |s.calls| == 2 && !Searches(s.threads[1]) && !Pushes(s.threads[1])
    ensures Freeing(ReclaimStep(s, 1, false), i + 1) && ReclaimStep(s, 1, false).pops == s.pops
  {
    hide Return;
  }

  lemma {:induction false} FreedUnderThreadZero(s: State, bound: Addr) returns (steps: seq<Step>)
    requires Held(s, 1, 0, bound)
    ensures RunAll(s, steps).fault && RunAll(s, steps).pops == s.pops + 1
  {
    steps := Runs.Do(Next, s, [], CallPop(1));
    for i := 0 to 10
      invariant Freeing(RunAll(s, steps), i) && RunAll(s, steps).pops == s.pops + if i < 1 then 0 else 1
    {
      hide Next;
      FreeingGoesOn(RunAll(s, steps), i);
      steps := Runs.Do(Next, s, steps, Run(1, 0, false));
    }
    steps := Runs.Do(Next, s, steps, Run(0, 0, false));
  }

  lemma {:induction false} HoldTop(s: State) returns (steps: seq<Step>)
    requires Pushing(s, 4, Idle, 1, 0, 0) && s.heap.Keys == {1}
    ensures Held(RunAll(s, steps), 1, 1, 2) && RunAll(s, steps).pops == s.pops + 1
  {
    steps := Runs.Do(Next, s, [], CallPop(0));
    steps := Runs.Do(Next, s, steps, Run(0, 0, false));
    steps := Runs.Do(Next, s, steps, Run(0, 0, false));
  }

  lemma {:induction false} FirstHeld() returns (steps: seq<Step>)
    ensures Held(RunAll(Init(2), steps), 1, 1, 2) && RunAll(Init(2), steps).pops == 1
  {
    hide Next;
    steps := OnePush(Init(2), Idle, 1, 0, 0);
    var more := HoldTop(RunAll(Init(2), steps));
    steps := Runs.Then(Next, Init(2), steps, more);
  }

  /** The bound is sharp: with 2^32 + 1 pops, two threads are enough to read a freed node. */
  lemma {:induction false} OnePopMoreFaults() returns (steps: seq<Step>)
    ensures var s := RunAll(Init(2), steps); s.fault && s.pops == 0x1_0000_0001
  {
    hide Next;
    steps := FirstHeld();
    var more, bound := ManyLeaks(RunAll(Init(2), steps), 0xFFFF_FFFF, 2);
    steps := Runs.Then(Next, Init(2), steps, more);
    more := FreedUnderThreadZero(RunAll(Init(2), steps), bound);
    steps := Runs.Then(Next, Init(2), steps, more);
  }

  /** The runs in which no more than `pops` pops begin. */
  predicate Within(n: nat, steps: seq<Step>, pops: nat) {
    RunAll(Init(n), steps).pops <= pops
  }

  /** So, over all runs of any number of threads, the safe numbers of pops are exactly those up to 2^32. */
  lemma {:induction false} SafeIffFewPops(pops: nat)
    ensures (forall n, steps :: Within(n, steps, pops) ==> !RunAll(Init(n), steps).fault) <==>
      pops <= 0x1_0000_0000
  {
    hide RunAll, Init;
    if pops <= 0x1_0000_0000 {
      forall n, steps | Within(n, steps, pops) ensures !RunAll(Init(n), steps).fault {
        NoFreedNodeTouched(n, steps);
      }
    } else {
      var steps := OnePopMoreFaults();
      assert Within(2, steps, pops);
    }
  }

  // ---------- the object ----------

  /** The steps done in place. The ghost fields are the history. */
  class ReclaimingStack {
    var heap: map<Addr, Node>
    var head: Addr
    var pending: Addr
    var count: nat
    var threads: seq<Pc>
    var fault: bool
    ghost var chain: seq<Addr>
    ghost var leaked: nat
    ghost var pops: nat
    ghost var log: seq<Event>
    ghost var calls: seq<Call>
    ghost var completed: seq<Completed>

    ghost function Current(): State
      reads this
    {
      State(heap, head, pending, count, threads, fault, chain, leaked, pops, log, calls, completed)
    }

    /** Up to 2^32 pops the invariant holds: no access has faulted, and the calls are linearizable. */
    ghost predicate Valid()
      reads this
    {
      Safe(Current())
    }

    constructor (n: nat)
      ensures Current() == Init(n) && Valid()
    {
      heap, head, pending, count, threads, fault := map[], 0, 0, 0, seq(n, _ => Idle), false;
      chain, leaked, pops, log, calls, completed := [], 0, 0, [], seq(n, _ => NoCall), [];
      new;
      InitIsSafe(n);
    }

    method Enter(t: nat, pc: Pc, ghost op: Operation)
      requires t < |threads| && t < |calls|
      modifies this`threads, this`calls
      ensures Current() == Begin(old(Current()), t, pc, op)
    {
      if threads[t].Idle? {
        calls := calls[t := Begun(op, |log|)];
        threads := threads[t := pc];
      }
    }

    /** Thread `t` enters `push`. */
    method StartPush(t: nat, value: int)
      requires Valid()
      modifies this
      ensures Current() == Next(old(Current()), CallPush(t, value)) && Valid()
    {
      hide Safe, Inv, Begin;
      SafeGivesLengths(Current());
      NextKeepsSafe(Current(), CallPush(t, value));
      if t < |threads| {
        Enter(t, PushStart(value), Push(value));
      }
    }

    /** Thread `t` enters `pop`. */
    method StartPop(t: nat)
      requires Valid()
      modifies this
      ensures Current() == Next(old(Current()), CallPop(t)) && Valid()
    {
      hide Safe, Inv, Begin;
      SafeGivesLengths(Current());
      NextKeepsSafe(Current(), CallPop(t));
      if t < |threads| {
        Enter(t, PopCount, Pop(false));
      }
    }

    method Move(t: nat, pc: Pc)
      requires t < |threads|
      modifies this`threads
      ensures Current() == Goto(old(Current()), t, pc)
    {
      threads := threads[t := pc];
    }

    ghost method TakeEffect(t: nat, event: Event)
      requires t < |calls|
      modifies this`log, this`calls
      ensures Current() == Log(old(Current()), t, event)
    {
      calls := calls[t := Effective(Asked(calls[t]), Since(calls[t]), |log|)];
      log := log + [event];
    }

    ghost method Finished(t: nat, event: Event)
      requires t < |calls|
      modifies this`calls, this`completed
      ensures t < |threads| ==> Current().(threads := threads[t := Idle]) == Return(old(Current()), t, event)
      ensures threads == old(threads)
    {
      var at := if calls[t].Effective? then calls[t].at else 0;
      completed := completed + [Completed(Asked(calls[t]), event, Since(calls[t]), at, |log|)];
      calls := calls[t := NoCall];
    }

    method Allocate(t: nat, slot: Addr, value: int)
      requires t < |threads| && t < |calls| && threads[t] == PushStart(value)
      modifies this`heap, this`threads
      ensures Current() == PushStep(old(Current()), t, slot, false)
    {
      if slot != 0 && slot !in heap {
        heap := heap[slot := Node(value, 0)];
        Move(t, PushLoad(slot, value));
      }
    }

    /** Reads `head` and makes it what `node` links to. */
    method LinkTo(node: Addr)
      requires node in heap
      modifies this`heap
      ensures Current() == old(Current()).(heap := SetNext(old(heap), node, head))
    {
      heap := heap[node := heap[node].(next := head)];
    }

    method Publish(t: nat, node: Addr, value: int)
      requires t < |threads| && t < |calls| && node in heap
      modifies this`head, this`threads, this`chain, this`log, this`calls
      ensures Current() ==
        Goto(Log(old(Current()), t, Pushed(t, heap[node].data)).(head := node, chain := [node] + old(chain)), t,
          PushDone(value))
    {
      TakeEffect(t, Pushed(t, heap[node].data));
      head, chain := node, [node] + chain;
      Move(t, PushDone(value));
    }

    /** Thread `t` returns what `event` says. */
    method Leave(t: nat, event: Event)
      requires t < |threads| && t < |calls|
      modifies this`threads, this`calls, this`completed
      ensures Current() == Return(old(Current()), t, event)
    {
      Finished(t, event);
      Move(t, Idle);
    }

    method StepPush(t: nat, slot: Addr, spurious: bool)
      requires t < |threads| && t < |calls|
      modifies this
      ensures Current() == PushStep(old(Current()), t, slot, spurious)
    {
      hide Goto, Log, Return;
      match threads[t] {
        case PushStart(value) => Allocate(t, slot, value);
        case PushLoad(node, value) =>
          if node in heap {
            LinkTo(node);
            Move(t, PushCas(node, value));
          } else {
            fault := true;
          }
        case PushCas(node, value) =>
          if node !in heap {
            fault := true;
          } else if head == heap[node].next && !spurious {
            Publish(t, node, value);
          } else {
            LinkTo(node);
          }
        case PushDone(value) => Leave(t, Pushed(t, value));
        case _ =>
      }
    }

    method Load(t: nat)
      requires t < |threads| && t < |calls|
      modifies this`threads, this`log, this`calls
      ensures Current() == LoadHead(old(Current()), t)
    {
      Move(t, PopLoop(head));
      if head == 0 {
        TakeEffect(t, FoundEmpty(t));
      }
    }

    method Unlink(t: nat, top: Addr, next: Addr)
      requires t < |threads| && t < |calls| && head == top && top in heap
      modifies this`head, this`threads, this`chain, this`log, this`calls
      ensures Current() ==
        Goto(Log(old(Current()), t, Popped(t, heap[top].data)).(head := next, chain := Rest(old(chain))), t,
          PopTake(top))
    {
      TakeEffect(t, Popped(t, heap[top].data));
      head, chain := next, Rest(chain);
      Move(t, PopTake(top));
    }

    /** Swaps the data out of the node. */
    method Take(t: nat, top: Addr)
      requires t < |threads| && top in heap
      modifies this`heap, this`threads
      ensures Current() ==
        Goto(old(Current()).(heap := old(heap)[top := old(heap[top]).(data := 0)]), t,
          PopCheck(top, old(heap[top]).data))
    {
      var result := heap[top].data;
      heap := heap[top := heap[top].(data := 0)];
      Move(t, PopCheck(top, result));
    }

    /** Keeps the node, and its own place in the counter. */
    method LeaveBehind(t: nat, top: Addr, result: int)
      requires t < |threads|
      modifies this`leaked, this`threads
      ensures Current() == Goto(old(Current()).(leaked := old(leaked) + 1), t, PopDone(top != 0, result))
    {
      leaked := leaked + 1;
      Move(t, PopDone(top != 0, result));
    }

    method StepPop(t: nat, spurious: bool)
      requires t < |threads| && t < |calls|
      modifies this
      ensures Current() == PopStep(old(Current()), t, spurious)
    {
      hide Goto, Log, LoadHead, Rest;
      match threads[t] {
        case PopCount =>
          count, pops := (count + 1) % 0x1_0000_0000, pops + 1;
          Move(t, PopLoad);
        case PopLoad => Load(t);
        case PopLoop(top) =>
          if top == 0 {
            Move(t, PopTake(0));
          } else if top in heap {
            Move(t, PopCas(top, heap[top].next));
          } else {
            fault := true;
          }
        case PopCas(top, next) =>
          if head != top || spurious {
            Load(t);
          } else if top in heap {
            Unlink(t, top, next);
          } else {
            fault := true;
          }
        case PopTake(_) => StepTake(t);
        case PopCheck(_, _) => StepTake(t);
        case _ =>
      }
    }

    method StepTake(t: nat)
      requires t < |threads| && t < |calls| && (threads[t].PopTake? || threads[t].PopCheck?)
      modifies this`heap, this`threads, this`leaked, this`fault
      ensures Current() == PopStep(old(Current()), t, false)
    {
      hide Goto, Log, LoadHead, Rest;
      var pc := threads[t];
      if pc.PopCheck? {
        if count == 1 {
          Move(t, PopExchange(pc.top, pc.result));
        } else {
          LeaveBehind(t, pc.top, pc.result);
        }
      } else if pc.top == 0 {
        Move(t, PopCheck(0, 0));
      } else if pc.top in heap {
        Take(t, pc.top);
      } else {
        fault := true;
      }
    }

    method Free(t: nat, node: Addr, pc: Pc)
      requires t < |threads|
      modifies this`heap, this`threads
      ensures Current() == Goto(old(Current()).(heap := old(heap) - {node}), t, pc)
    {
      heap := heap - {node};
      Move(t, pc);
    }

    method Uncount(t: nat, top: Addr, result: int, nodes: Addr)
      requires t < |threads| && t < |calls| && threads[t] == PopDecrement(top, result, nodes)
      modifies this`count, this`threads
      ensures Current() == ReclaimStep(old(Current()), t, false)
    {
      hide Goto;
      count := (count - 1) % 0x1_0000_0000;
      if count == 0 {
        Move(t, DeleteNodes(top, result, nodes));
      } else if nodes != 0 {
        Move(t, ChainFollow(top, result, nodes, nodes));
      } else {
        Move(t, PopDelete(top, result));
      }
    }

    method StepFree(t: nat)
      requires t < |threads| && t < |calls| && (threads[t].DeleteNodes? || threads[t].PopDelete?)
      modifies this`heap, this`threads, this`fault
      ensures Current() == ReclaimStep(old(Current()), t, false)
    {
      hide Goto, Return;
      var pc := threads[t];
      var node := if pc.DeleteNodes? then pc.nodes else pc.top;
      if node == 0 {
        Move(t, if pc.DeleteNodes? then PopDelete(pc.top, pc.result) else PopDone(false, pc.result));
      } else if node !in heap {
        fault := true;
      } else if pc.DeleteNodes? {
        Free(t, node, DeleteNodes(pc.top, pc.result, heap[node].next));
      } else {
        Free(t, node, PopDone(true, pc.result));
      }
    }

    method StepReclaim(t: nat, spurious: bool)
      requires t < |threads| && t < |calls|
      modifies this
      ensures Current() == ReclaimStep(old(Current()), t, spurious)
    {
      hide Goto, Return;
      match threads[t] {
        case PopExchange(top, result) =>
          var nodes := pending;
          pending := 0;
          Move(t, PopDecrement(top, result, nodes));
        case PopDecrement(top, result, nodes) => Uncount(t, top, result, nodes);
        case DeleteNodes(_, _, _) => StepFree(t);
        case PopDelete(_, _) => StepFree(t);
        case PopDone(found, result) =>
          Leave(t, if found then Popped(t, result) else FoundEmpty(t));
        case ChainFollow(_, _, _, _) => StepChain(t, spurious);
        case ChainLink(_, _, _, _) => StepChain(t, spurious);
        case ChainCas(_, _, _, _) => StepChain(t, spurious);
        case _ =>
      }
    }

    method StepChain(t: nat, spurious: bool)
      requires t < |threads| && t < |calls|
      requires threads[t].ChainFollow? || threads[t].ChainLink? || threads[t].ChainCas?
      modifies this`heap, this`pending, this`threads, this`fault
      ensures Current() == ReclaimStep(old(Current()), t, spurious)
    {
      hide Goto;
      var pc := threads[t];
      if pc.last !in heap {
        fault := true;
      } else if pc.ChainFollow? {
        if heap[pc.last].next != 0 {
          Move(t, ChainFollow(pc.top, pc.result, pc.first, heap[pc.last].next));
        } else {
          Move(t, ChainLink(pc.top, pc.result, pc.first, pc.last));
        }
      } else if pc.ChainLink? {
        heap := heap[pc.last := heap[pc.last].(next := pending)];
        Move(t, ChainCas(pc.top, pc.result, pc.first, pc.last));
      } else if pending == heap[pc.last].next && !spurious {
        pending := pc.first;
        Move(t, PopDelete(pc.top, pc.result));
      } else {
        heap := heap[pc.last := heap[pc.last].(next := pending)];
      }
    }

    /** The next access of thread `t`. */
    method Step(t: nat, slot: Addr, spurious: bool)
      requires Valid()
      modifies this
      ensures Current() == Next(old(Current()), Run(t, slot, spurious)) && Valid()
    {
      hide Safe, Inv, PushStep, PopStep, ReclaimStep;
      SafeGivesLengths(Current());
      NextKeepsSafe(Current(), Run(t, slot, spurious));
      if t < |threads| {
        if Pushes(threads[t]) {
          StepPush(t, slot, spurious);
        } else if Searches(threads[t]) {
          StepPop(t, spurious);
        } else {
          StepReclaim(t, spurious);
        }
      }
    }
  }

  lemma {:induction false} SafeGivesLengths(s: State)
    requires Safe(s)
    ensures |s.calls| == |s.threads|
  {
  }
}
