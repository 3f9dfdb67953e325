/**
 * The list with a mutex in every node, which a traversal locks hand over hand.
 *
 * A step takes or releases one mutex, or does what a thread does to nodes whose mutexes it holds.
 * The heap is a map from addresses to nodes, and a destroyed node's address may be used again. A
 * step sets `fault` if it touches a node that is not there, or one that the thread has not locked.
 */
module HandOverHandList {
  import opened Options
  import Runs

  type Addr = nat

  const HEAD: Addr := 1

  /** A node is born when it is linked in; the number of its birth is history. */
  datatype Node = Node(birth: nat, data: int, next: Addr, owner: Option<nat>)

  datatype Op = ForEach | FindFirst(p: int -> bool) | RemoveIf(p: int -> bool)

  /** A traversal: how many nodes had been born when it locked the head, and, for `for_each`, the
      births of the nodes shown to the function. Both are history. */
  datatype Call = Call(op: Op, since: nat, seen: seq<nat>)

  datatype Pc =
    | Idle
    | PushNew(value: int)
    | PushLock(node: Addr)
    | PushLink(node: Addr)
    | PushUnlock
    | Start(op: Op)
    | At(call: Call, cur: Addr)
    | Want(call: Call, cur: Addr, next: Addr)
    | Both(call: Call, cur: Addr, next: Addr)
    | Visit(call: Call, cur: Addr)
    | Unlinked(call: Call, cur: Addr, next: Addr)
    | Destroy(call: Call, cur: Addr, next: Addr)
    | Leave(call: Call, cur: Addr, found: bool)

  /** `chain` and the fields after it are history: the number of nodes linked in, the value each thread
      was last called with to push, the value of each birth, and the data of the nodes taken out. */
  datatype State = State(
    heap: map<Addr, Node>, threads: seq<Pc>, fault: bool,
    chain: seq<Addr>, born: nat, asked: seq<int>, pushed: seq<int>, removed: seq<int>)

  datatype Step = CallPush(thread: nat, value: int) | CallTraverse(thread: nat, op: Op) | Run(thread: nat, slot: Addr)

  // ---------- the steps ----------

  function Goto(s: State, t: nat, pc: Pc): State
    requires t < |s.threads|
  {
    s.(threads := s.threads[t := pc])
  }

  predicate Mine(heap: map<Addr, Node>, a: Addr, t: nat) {
    a in heap && heap[a].owner == Some(t)
  }

  function Acquire(s: State, t: nat, a: Addr, pc: Pc): State
    requires t < |s.threads|
  {
    if a !in s.heap then s.(fault := true)
    else if s.heap[a].owner.Some? then s
    else Goto(s.(heap := s.heap[a := s.heap[a].(owner := Some(t))]), t, pc)
  }

  function Release(s: State, t: nat, a: Addr, pc: Pc): State
    requires t < |s.threads|
  {
    if !Mine(s.heap, a, t) then s.(fault := true)
    else Goto(s.(heap := s.heap[a := s.heap[a].(owner := None)]), t, pc)
  }

  function Without(chain: seq<Addr>, a: Addr): seq<Addr> {
    if chain == [] then []
    else if chain[0] == a then chain[1..]
    else [chain[0]] + Without(chain[1..], a)
  }

  function InFront(chain: seq<Addr>, n: Addr): seq<Addr> {
    if chain == [] then [] else [chain[0], n] + chain[1..]
  }

  function AskedOf(asked: seq<int>, t: nat): int {
    if t < |asked| then asked[t] else 0
  }

  function LinkInFront(s: State, t: nat, n: Addr): State
    requires t < |s.threads|
  {
    if n !in s.heap || !Mine(s.heap, HEAD, t) || n == HEAD then s.(fault := true)
    else
      var heap := s.heap[n := s.heap[n].(next := s.heap[HEAD].next, birth := s.born)];
      Goto(s.(heap := heap[HEAD := heap[HEAD].(next := n)], chain := InFront(s.chain, n), born := s.born + 1,
        pushed := s.pushed + [AskedOf(s.asked, t)]), t, PushUnlock)
  }

  function Unlink(s: State, t: nat, call: Call, cur: Addr, next: Addr): State
    requires t < |s.threads| && cur in s.heap && next in s.heap
  {
    var heap := s.heap[cur := s.heap[cur].(next := s.heap[next].next)];
    if cur == next then s.(fault := true)
    else
      Goto(s.(heap := heap[next := heap[next].(next := 0)], chain := Without(s.chain, next),
        removed := s.removed + [s.heap[next].data]), t, Unlinked(call, cur, next))
  }

  function PushStep(s: State, t: nat, slot: Addr): State
    requires t < |s.threads|
  {
    match s.threads[t]
    case PushNew(value) =>
      if slot == 0 || slot in s.heap then s
      else Goto(s.(heap := s.heap[slot := Node(0, value, 0, None)]), t, PushLock(slot))
    case PushLock(n) => Acquire(s, t, HEAD, PushLink(n))
    case PushLink(n) => LinkInFront(s, t, n)
    case PushUnlock => Release(s, t, HEAD, Idle)
    case _ => s
  }

  function VisitStep(s: State, t: nat, call: Call, cur: Addr): State
    requires t < |s.threads| && cur in s.heap
  {
    match call.op
    case ForEach => Goto(s, t, At(call.(seen := call.seen + [s.heap[cur].birth]), cur))
    case FindFirst(p) => Goto(s, t, if p(s.heap[cur].data) then Leave(call, cur, true) else At(call, cur))
    case RemoveIf(_) => Goto(s, t, At(call, cur))
  }

  /** Holding both mutexes, `remove_if` tests the data at once; the others let go of `cur` first. */
  function BothStep(s: State, t: nat, call: Call, cur: Addr, next: Addr): State
    requires t < |s.threads|
  {
    if !Mine(s.heap, cur, t) || !Mine(s.heap, next, t) then s.(fault := true)
    else if call.op.RemoveIf? then
      if call.op.p(s.heap[next].data) then Unlink(s, t, call, cur, next) else Release(s, t, cur, At(call, next))
    else Release(s, t, cur, Visit(call, next))
  }

  function TraverseStep(s: State, t: nat): State
    requires t < |s.threads|
  {
    match s.threads[t]
    case Start(op) => Acquire(s, t, HEAD, At(Call(op, s.born, []), HEAD))
    case At(call, cur) =>
      if !Mine(s.heap, cur, t) then s.(fault := true)
      else if s.heap[cur].next == 0 then Goto(s, t, Leave(call, cur, false))
      else Goto(s, t, Want(call, cur, s.heap[cur].next))
    case Want(call, cur, next) => Acquire(s, t, next, Both(call, cur, next))
    case Both(call, cur, next) => BothStep(s, t, call, cur, next)
    case Visit(call, cur) => if !Mine(s.heap, cur, t) then s.(fault := true) else VisitStep(s, t, call, cur)
    case Unlinked(call, cur, next) => Release(s, t, next, Destroy(call, cur, next))
    case Destroy(call, cur, next) =>
      if next !in s.heap || s.heap[next].owner.Some? then s.(fault := true)
      else Goto(s.(heap := s.heap - {next}), t, At(call, cur))
    case Leave(_, cur, _) => Release(s, t, cur, Idle)
    case _ => s
  }

  predicate Pushes(pc: Pc) {
    pc.PushNew? || pc.PushLock? || pc.PushLink? || pc.PushUnlock?
  }

  function Next(s: State, step: Step): State {
    if step.thread >= |s.threads| || step.thread >= |s.asked| then s
    else
      match step
      case CallPush(t, value) =>
        if s.threads[t].Idle? then Goto(s, t, PushNew(value)).(asked := s.asked[t := value]) else s
      case CallTraverse(t, op) => if s.threads[t].Idle? then Goto(s, t, Start(op)) else s
      case Run(t, slot) => if Pushes(s.threads[t]) then PushStep(s, t, slot) else TraverseStep(s, t)
  }

  function Init(n: nat): State {
    State(map[HEAD := Node(0, 0, 0, None)], seq(n, _ => Idle), false, [HEAD], 0, seq(n, _ => 0), [], [])
  }

  function RunAll(s: State, steps: seq<Step>): State {
    Runs.Run(Next, s, steps)
  }

  // ---------- what holds in every state ----------

  predicate Traverses(pc: Pc) {
    || pc.At? || pc.Want? || pc.Both? || pc.Visit? || pc.Unlinked? || pc.Destroy? || pc.Leave?
  }

  function First(pc: Pc): Addr {
    if Traverses(pc) then pc.cur else if pc.PushLink? || pc.PushUnlock? then HEAD else 0
  }

  function Second(pc: Pc): Addr {
    if pc.Both? || pc.Unlinked? then pc.next else 0
  }

  predicate Holds(pc: Pc, a: Addr) {
    a != 0 && (a == First(pc) || a == Second(pc))
  }

  /** The node outside the list that only this thread knows of; 0 if none. */
  function Private(pc: Pc): Addr {
    if pc.PushLock? || pc.PushLink? then pc.node
    else if pc.Unlinked? || pc.Destroy? then pc.next
    else 0
  }

  function After(chain: seq<Addr>, i: nat): Addr {
    if i + 1 < |chain| then chain[i + 1] else 0
  }

  predicate LinkAt(heap: map<Addr, Node>, chain: seq<Addr>, i: nat) {
    i < |chain| && chain[i] in heap && heap[chain[i]].next == After(chain, i)
  }

  predicate Distinct(chain: seq<Addr>) {
    forall i, j :: 0 <= i < j < |chain| ==> chain[i] != chain[j]
  }

  /** The newest node comes first. */
  predicate ByBirth(heap: map<Addr, Node>, chain: seq<Addr>, born: nat)
    requires forall i :: 0 <= i < |chain| ==> chain[i] in heap
  {
    && (forall i, j :: 1 <= i < j < |chain| ==> heap[chain[i]].birth > heap[chain[j]].birth)
    && (forall i :: 1 <= i < |chain| ==> heap[chain[i]].birth < born)
  }

  predicate Linked(heap: map<Addr, Node>, chain: seq<Addr>, born: nat) {
    && chain != [] && chain[0] == HEAD && Distinct(chain)
    && (forall i :: 0 <= i < |chain| ==> chain[i] != 0 && chain[i] in heap)
    && (forall i: nat {:trigger LinkAt(heap, chain, i)} :: i < |chain| ==> LinkAt(heap, chain, i))
    && ByBirth(heap, chain, born)
  }

  /** What a traversal has made sure of about a node it has passed. */
  predicate Dealt(call: Call, node: Node) {
    match call.op
    case ForEach => node.birth in call.seen
    case FindFirst(p) => !p(node.data)
    case RemoveIf(p) => !p(node.data)
  }

  /** The list is ordered by birth, so the nodes up to `cur` are those born no earlier than it. */
  predicate Passed(heap: map<Addr, Node>, pc: Pc, a: Addr)
    requires Traverses(pc) && pc.cur in heap && a in heap
  {
    && pc.cur != HEAD
    && if pc.Visit? || (pc.Leave? && pc.found) then heap[a].birth > heap[pc.cur].birth
       else heap[a].birth >= heap[pc.cur].birth
  }

  predicate DealtUpTo(heap: map<Addr, Node>, chain: seq<Addr>, pc: Pc)
    requires Traverses(pc) && pc.cur in heap
  {
    forall a :: a in chain && a in heap && a != HEAD && Passed(heap, pc, a) && heap[a].birth < pc.call.since ==>
      Dealt(pc.call, heap[a])
  }

  predicate SeenOk(heap: map<Addr, Node>, pc: Pc)
    requires Traverses(pc) && pc.cur in heap
  {
    var seen := pc.call.seen;
    && (forall i, j :: 0 <= i < j < |seen| ==> seen[i] > seen[j])
    && (forall i :: 0 <= i < |seen| ==> seen[i] < pc.call.since)
    && (seen != [] ==> pc.cur != HEAD)
    && (forall i :: 0 <= i < |seen| ==> seen[i] > heap[pc.cur].birth || (seen[i] == heap[pc.cur].birth && !pc.Visit?))
  }

  predicate CallOk(heap: map<Addr, Node>, chain: seq<Addr>, born: nat, pc: Pc)
    requires Traverses(pc) && pc.cur in heap
  {
    && pc.call.since <= born
    && (if pc.cur == HEAD then pc.call.since == born else heap[pc.cur].birth < pc.call.since)
    && DealtUpTo(heap, chain, pc)
    && SeenOk(heap, pc)
    && (pc.Visit? ==> pc.cur != HEAD && !pc.call.op.RemoveIf?)
    && (pc.Leave? ==> if pc.found then pc.cur != HEAD && pc.call.op.FindFirst? && pc.call.op.p(heap[pc.cur].data)
                      else heap[pc.cur].next == 0)
  }

  predicate ThreadOk(heap: map<Addr, Node>, chain: seq<Addr>, born: nat, t: nat, pc: Pc) {
    && (First(pc) != 0 ==> Mine(heap, First(pc), t) && First(pc) in chain)
    && (Second(pc) != 0 ==> Mine(heap, Second(pc), t))
    && (Private(pc) != 0 ==> Private(pc) in heap && Private(pc) !in chain)
    && (Private(pc) != 0 && Second(pc) == 0 ==> heap[Private(pc)].owner == None)
    && (pc.PushLock? || pc.PushLink? ==> pc.node != 0)
    && (Traverses(pc) ==> pc.cur != 0 && CallOk(heap, chain, born, pc))
    && (pc.Want? || pc.Both? ==> pc.next != 0 && heap[pc.cur].next == pc.next)
    && (pc.Unlinked? || pc.Destroy? ==> pc.next != 0)
  }

  predicate Apart(pc: Pc, other: Pc) {
    Private(pc) != 0 ==> Private(pc) != Private(other)
  }

  predicate OwnersOk(heap: map<Addr, Node>, threads: seq<Pc>) {
    forall a :: a in heap && heap[a].owner.Some? ==>
      heap[a].owner.value < |threads| && Holds(threads[heap[a].owner.value], a)
  }

  predicate Inv(s: State) {
    && !s.fault && |s.asked| == |s.threads|
    && Linked(s.heap, s.chain, s.born)
    && OwnersOk(s.heap, s.threads)
    && (forall t :: 0 <= t < |s.threads| ==> ThreadOk(s.heap, s.chain, s.born, t, s.threads[t]))
    && (forall t, u :: 0 <= t < |s.threads| && 0 <= u < |s.threads| && t != u ==> Apart(s.threads[t], s.threads[u]))
  }

  // ---------- one thread moves ----------

  predicate OtherOk(heap: map<Addr, Node>, chain: seq<Addr>, born: nat, mover: Pc, u: nat, pc: Pc) {
    ThreadOk(heap, chain, born, u, pc) && Apart(pc, mover) && Apart(mover, pc)
  }

  predicate OthersOk(s: State, s': State, t: nat)
    requires t < |s.threads| == |s'.threads|
  {
    forall u :: 0 <= u < |s.threads| && u != t ==> OtherOk(s'.heap, s'.chain, s'.born, s'.threads[t], u, s.threads[u])
  }

  ghost predicate StepOk(s: State, s': State, t: nat) {
    && t < |s.threads| == |s'.threads| && s'.threads == s.threads[t := s'.threads[t]] && !s'.fault
    && |s'.asked| == |s.asked|
    && Linked(s'.heap, s'.chain, s'.born) && OwnersOk(s'.heap, s'.threads)
    && ThreadOk(s'.heap, s'.chain, s'.born, t, s'.threads[t]) && OthersOk(s, s', t)
  }

  lemma {:induction false} InvGivesParts(s: State, t: nat)
    requires Inv(s) && t < |s.threads|
    ensures ThreadOk(s.heap, s.chain, s.born, t, s.threads[t]) && OthersOk(s, s, t)
  {
    hide ThreadOk, Apart, Linked, OwnersOk;
  }

  lemma {:induction false} PartsGiveInv(s: State, s': State, t: nat)
    requires Inv(s) && StepOk(s, s', t)
    ensures Inv(s')
  {
    hide ThreadOk, Apart, Linked, OwnersOk;
    forall u | 0 <= u < |s'.threads| ensures ThreadOk(s'.heap, s'.chain, s'.born, u, s'.threads[u]) {
      assert u != t ==> OtherOk(s'.heap, s'.chain, s'.born, s'.threads[t], u, s.threads[u]);
    }
    forall u, v | 0 <= u < |s'.threads| && 0 <= v < |s'.threads| && u != v
      ensures Apart(s'.threads[u], s'.threads[v])
    {
      assert u != t ==> OtherOk(s'.heap, s'.chain, s'.born, s'.threads[t], u, s.threads[u]);
      assert v != t ==> OtherOk(s'.heap, s'.chain, s'.born, s'.threads[t], v, s.threads[v]);
    }
  }

  // ---------- what a move does to the others ----------

  lemma {:induction false} OtherWhenQuiet(
    heap: map<Addr, Node>, chain: seq<Addr>, born: nat, mover: Pc, mover': Pc, u: nat, pc: Pc)
    requires OtherOk(heap, chain, born, mover, u, pc)
    requires Private(mover') == Private(mover) || Private(mover') == 0
    ensures OtherOk(heap, chain, born, mover', u, pc)
  {
    hide ThreadOk;
  }

  /** The account of a traversal stays as long as its node does, and the nodes it has to do with. */
  lemma {:induction false} CallKept(
    heap: map<Addr, Node>, chain: seq<Addr>, born: nat, heap': map<Addr, Node>, chain': seq<Addr>, born': nat, pc: Pc)
    requires Traverses(pc) && pc.cur in heap && CallOk(heap, chain, born, pc)
    requires pc.cur in heap' && heap'[pc.cur].(owner := None) == heap[pc.cur].(owner := None)
    requires forall a :: a in chain' && a in heap' && a != HEAD && heap'[a].birth < pc.call.since ==>
      a in chain && a in heap && heap'[a].birth == heap[a].birth && heap'[a].data == heap[a].data
    requires born <= born' && (pc.cur == HEAD ==> born' == born)
    ensures CallOk(heap', chain', born', pc)
  {
    DealtKept(heap, chain, heap', chain', pc);
    SeenKept(heap, heap', pc);
    hide DealtUpTo, SeenOk;
  }

  lemma {:induction false} SeenKept(heap: map<Addr, Node>, heap': map<Addr, Node>, pc: Pc)
    requires Traverses(pc) && pc.cur in heap && pc.cur in heap' && heap'[pc.cur].birth == heap[pc.cur].birth
    ensures SeenOk(heap, pc) ==> SeenOk(heap', pc)
  {
  }

  lemma {:induction false} DealtKept(
    heap: map<Addr, Node>, chain: seq<Addr>, heap': map<Addr, Node>, chain': seq<Addr>, pc: Pc)
    requires Traverses(pc) && pc.cur in heap && pc.cur in heap' && heap'[pc.cur].birth == heap[pc.cur].birth
    requires forall a :: a in chain' && a in heap' && a != HEAD && heap'[a].birth < pc.call.since ==>
      a in chain && a in heap && heap'[a].birth == heap[a].birth && heap'[a].data == heap[a].data
    ensures DealtUpTo(heap, chain, pc) ==> DealtUpTo(heap', chain', pc)
  {
  }

  /** A mutex that `u` does not hold is taken or released. */
  lemma {:induction false} OtherWhenLocked(
    heap: map<Addr, Node>, chain: seq<Addr>, born: nat, a: Addr, owner: Option<nat>, u: nat, pc: Pc)
    requires ThreadOk(heap, chain, born, u, pc) && a in heap && heap[a].owner != Some(u) && a != Private(pc)
    ensures ThreadOk(heap[a := heap[a].(owner := owner)], chain, born, u, pc)
  {
    hide CallOk;
    if Traverses(pc) {
      CallKept(heap, chain, born, heap[a := heap[a].(owner := owner)], chain, born, pc);
    }
  }

  lemma {:induction false} OtherWhenAllocated(
    heap: map<Addr, Node>, chain: seq<Addr>, born: nat, n: Addr, value: int, u: nat, pc: Pc)
    requires OtherOk(heap, chain, born, PushNew(value), u, pc) && n != 0 && n !in heap
    requires forall i :: 0 <= i < |chain| ==> chain[i] in heap
    ensures OtherOk(heap[n := Node(0, value, 0, None)], chain, born, PushLock(n), u, pc)
  {
    hide CallOk;
    if Traverses(pc) {
      CallKept(heap, chain, born, heap[n := Node(0, value, 0, None)], chain, born, pc);
    }
  }

  lemma {:induction false} OtherWhenLinked(
    heap: map<Addr, Node>, chain: seq<Addr>, born: nat, n: Addr, heap': map<Addr, Node>, t: nat, u: nat, pc: Pc)
    requires OtherOk(heap, chain, born, PushLink(n), u, pc) && Linked(heap, chain, born)
    requires n in heap && n != 0 && n !in chain && Mine(heap, HEAD, t) && t != u
    requires heap'.Keys == heap.Keys && forall a :: a in heap && a != n && a != HEAD ==> heap'[a] == heap[a]
    requires heap'[HEAD] == heap[HEAD].(next := n) && heap'[n] == heap[n].(birth := born, next := heap[HEAD].next)
    ensures OtherOk(heap', InFront(chain, n), born + 1, PushUnlock, u, pc)
  {
    hide CallOk, Linked, InFront;
    NotEmpty(heap, chain, born);
    InFrontHas(chain, n);
    if Traverses(pc) {
      assert pc.cur != HEAD && pc.cur != n;
      SinceBounded(heap, chain, born, pc);
      CallKept(heap, chain, born, heap', InFront(chain, n), born + 1, pc);
    }
  }

  lemma {:induction false} NotEmpty(heap: map<Addr, Node>, chain: seq<Addr>, born: nat)
    requires Linked(heap, chain, born)
    ensures chain != [] && chain[0] == HEAD && forall a :: a in chain ==> a != 0 && a in heap
  {
  }

  lemma {:induction false} SinceBounded(heap: map<Addr, Node>, chain: seq<Addr>, born: nat, pc: Pc)
    requires Traverses(pc) && pc.cur in heap && CallOk(heap, chain, born, pc)
    ensures pc.call.since <= born
  {
  }

  lemma {:induction false} InFrontHas(chain: seq<Addr>, n: Addr)
    requires chain != []
    ensures forall a :: a in InFront(chain, n) <==> a in chain || a == n
  {
    assert chain == [chain[0]] + chain[1..];
  }

  lemma {:induction false} WithoutHas(chain: seq<Addr>, a: Addr)
    ensures forall x :: x in chain && x != a ==> x in Without(chain, a)
    ensures forall x :: x in Without(chain, a) ==> x in chain
    decreases |chain|
  {
    if chain != [] && chain[0] != a {
      WithoutHas(chain[1..], a);
    }
  }

  lemma {:induction false} OtherWhenUnlinked(
    heap: map<Addr, Node>, chain: seq<Addr>, born: nat, mover: Pc, heap': map<Addr, Node>, t: nat, u: nat, pc: Pc)
    requires mover.Both? && OtherOk(heap, chain, born, mover, u, pc)
    requires Mine(heap, mover.cur, t) && Mine(heap, mover.next, t) && t != u && mover.next in chain && mover.next != 0
    requires heap'.Keys == heap.Keys && forall a :: a in heap && a != mover.cur && a != mover.next ==>
      heap'[a] == heap[a]
    requires forall a :: a in heap ==> heap'[a] == heap[a].(next := heap'[a].next)
    ensures OtherOk(heap', Without(chain, mover.next), born, Unlinked(mover.call, mover.cur, mover.next), u, pc)
  {
    hide CallOk, Without;
    WithoutHas(chain, mover.next);
    if Traverses(pc) {
      CallKept(heap, chain, born, heap', Without(chain, mover.next), born, pc);
    }
  }

  lemma {:induction false} OtherWhenDestroyed(
    heap: map<Addr, Node>, chain: seq<Addr>, born: nat, mover: Pc, u: nat, pc: Pc)
    requires mover.Destroy? && OtherOk(heap, chain, born, mover, u, pc) && mover.next in heap && mover.next !in chain
    requires heap[mover.next].owner == None && mover.next != 0
    ensures OtherOk(heap - {mover.next}, chain, born, At(mover.call, mover.cur), u, pc)
  {
    hide CallOk;
    if Traverses(pc) {
      CallKept(heap, chain, born, heap - {mover.next}, chain, born, pc);
    }
  }

  // ---------- the list ----------

  lemma {:induction false} LinkedSame(heap: map<Addr, Node>, heap': map<Addr, Node>, chain: seq<Addr>, born: nat)
    requires Linked(heap, chain, born)
    requires forall a :: a in chain && a in heap ==>
      a in heap' && heap'[a].next == heap[a].next && heap'[a].birth == heap[a].birth
    ensures Linked(heap', chain, born)
  {
    forall i: nat | i < |chain| ensures LinkAt(heap', chain, i) {
      assert LinkAt(heap, chain, i);
    }
  }

  lemma {:induction false} LinkedInFront(
    heap: map<Addr, Node>, chain: seq<Addr>, born: nat, n: Addr, heap': map<Addr, Node>)
    requires Linked(heap, chain, born) && n in heap && n != 0 && n !in chain
    requires heap'.Keys == heap.Keys && forall a :: a in heap && a != n && a != HEAD ==> heap'[a] == heap[a]
    requires heap'[HEAD] == heap[HEAD].(next := n) && heap'[n] == heap[n].(birth := born, next := heap[HEAD].next)
    ensures Linked(heap', InFront(chain, n), born + 1)
  {
    var chain' := InFront(chain, n);
    assert forall i :: 2 <= i < |chain'| ==> chain'[i] == chain[i - 1] && chain'[i] != n && chain'[i] != HEAD;
    forall i: nat | i < |chain'| ensures LinkAt(heap', chain', i) {
      if i >= 1 {
        assert LinkAt(heap, chain, i - 1);
      }
    }
  }

  lemma {:induction false} WithoutAt(chain: seq<Addr>, k: nat)
    requires k < |chain| && forall i :: 0 <= i < k ==> chain[i] != chain[k]
    ensures Without(chain, chain[k]) == chain[..k] + chain[k + 1..]
    decreases k
  {
    if k > 0 {
      var rest := chain[1..];
      assert rest[k - 1] == chain[k] && rest[k..] == chain[k + 1..] && [chain[0]] + rest[..k - 1] == chain[..k];
      WithoutAt(rest, k - 1);
      assert [chain[0]] + (rest[..k - 1] + rest[k..]) == ([chain[0]] + rest[..k - 1]) + rest[k..];
    }
  }

  /** `chain'` is `chain` without the element after index `k`. */
  predicate Skips(chain: seq<Addr>, chain': seq<Addr>, k: nat) {
    && k + 1 < |chain| && |chain'| == |chain| - 1
    && (forall i :: 0 <= i <= k ==> chain'[i] == chain[i])
    && (forall i :: k < i < |chain'| ==> chain'[i] == chain[i + 1])
  }

  lemma {:induction false} SkipAvoids(chain: seq<Addr>, chain': seq<Addr>, k: nat)
    requires Skips(chain, chain', k) && Distinct(chain)
    ensures Distinct(chain') && chain[k + 1] !in chain'
  {
  }

  lemma {:induction false} SkipBirths(
    heap: map<Addr, Node>, chain: seq<Addr>, born: nat, heap': map<Addr, Node>, chain': seq<Addr>, k: nat)
    requires Skips(chain, chain', k)
    requires forall i :: 0 <= i < |chain| ==> chain[i] in heap
    requires ByBirth(heap, chain, born)
    requires forall i :: 0 <= i < |chain'| ==>
      chain'[i] in heap' && chain'[i] in heap && heap'[chain'[i]].birth == heap[chain'[i]].birth
    ensures ByBirth(heap', chain', born)
  {
  }

  lemma {:induction false} SkipLink(
    heap: map<Addr, Node>, chain: seq<Addr>, heap': map<Addr, Node>, chain': seq<Addr>, k: nat, i: nat, j: nat)
    requires Skips(chain, chain', k) && i < |chain'| && j == if i <= k then i else i + 1
    requires LinkAt(heap, chain, j) && LinkAt(heap, chain, k + 1) && chain[j] in heap'
    requires heap'[chain[j]].next == if i == k then heap[chain[k + 1]].next else heap[chain[j]].next
    ensures LinkAt(heap', chain', i)
  {
  }

  lemma {:induction false} WithoutSkips(chain: seq<Addr>, k: nat)
    requires Distinct(chain) && k + 1 < |chain|
    ensures Skips(chain, Without(chain, chain[k + 1]), k)
  {
    WithoutAt(chain, k + 1);
  }

  lemma {:induction false} SkipAt(chain: seq<Addr>, chain': seq<Addr>, k: nat, i: nat) returns (j: nat)
    requires Skips(chain, chain', k) && Distinct(chain) && i < |chain'|
    ensures j == (if i <= k then i else i + 1) < |chain| && chain'[i] == chain[j] != chain[k + 1]
    ensures i != k ==> chain[j] != chain[k]
  {
    j := if i <= k then i else i + 1;
  }

  lemma {:induction false} SkipStart(chain: seq<Addr>, chain': seq<Addr>, k: nat)
    requires Skips(chain, chain', k)
    ensures chain' != [] && chain'[0] == chain[0]
  {
  }

  lemma {:induction false} LinkedWithout(
    heap: map<Addr, Node>, chain: seq<Addr>, born: nat, k: nat, heap': map<Addr, Node>)
    requires Linked(heap, chain, born) && k + 1 < |chain|
    requires heap'.Keys == heap.Keys
    requires forall a :: a in heap && a != chain[k] && a != chain[k + 1] ==> heap'[a] == heap[a]
    requires heap'[chain[k]] == heap[chain[k]].(next := heap[chain[k + 1]].next)
    ensures Linked(heap', Without(chain, chain[k + 1]), born) && chain[k + 1] !in Without(chain, chain[k + 1])
  {
    hide Without, Skips, Distinct, ByBirth, LinkAt;
    var chain' := Without(chain, chain[k + 1]);
    WithoutSkips(chain, k);
    SkipAvoids(chain, chain', k);
    SkipStart(chain, chain', k);
    forall i: nat | i < |chain'|
      ensures chain'[i] != 0 && chain'[i] in heap'
      ensures heap'[chain'[i]].birth == heap[chain'[i]].birth && LinkAt(heap', chain', i)
    {
      var j := SkipAt(chain, chain', k, i);
      assert LinkAt(heap, chain, j) && LinkAt(heap, chain, k + 1);
      SkipLink(heap, chain, heap', chain', k, i, j);
    }
    SkipBirths(heap, chain, born, heap', chain', k);
  }

  /** The next node is the next one in the order of births. */
  lemma {:induction false} NextInOrder(heap: map<Addr, Node>, chain: seq<Addr>, born: nat, cur: Addr) returns (k: nat)
    requires Linked(heap, chain, born) && cur in chain
    ensures k < |chain| && chain[k] == cur && heap[cur].next == After(chain, k)
    ensures heap[cur].next != 0 ==> var next := heap[cur].next;
      && k + 1 < |chain| && chain[k + 1] == next && next in heap && next != HEAD && next != cur
      && (cur != HEAD ==> heap[next].birth < heap[cur].birth)
      && forall a :: a in chain && a != HEAD && heap[a].birth > heap[next].birth ==>
           cur != HEAD && heap[a].birth >= heap[cur].birth
    ensures heap[cur].next == 0 ==> forall a :: a in chain && a != HEAD ==>
      cur != HEAD && heap[a].birth >= heap[cur].birth
  {
    k :| 0 <= k < |chain| && chain[k] == cur;
    assert LinkAt(heap, chain, k);
    var next := heap[cur].next;
    forall a | a in chain && a != HEAD && (next == 0 || heap[a].birth > heap[chain[k + 1]].birth)
      ensures cur != HEAD && heap[a].birth >= heap[cur].birth
    {
      var i :| 0 <= i < |chain| && chain[i] == a;
      assert i <= k;
    }
  }

  lemma {:induction false} SameBirthSameNode(heap: map<Addr, Node>, chain: seq<Addr>, born: nat, a: Addr, b: Addr)
    requires Linked(heap, chain, born) && a in chain && b in chain
    requires a != HEAD && b != HEAD && heap[a].birth == heap[b].birth
    ensures a == b
  {
    var i :| 0 <= i < |chain| && chain[i] == a;
    var j :| 0 <= j < |chain| && chain[j] == b;
  }

  // ---------- each step ----------

  lemma {:induction false} OwnersMoved(heap: map<Addr, Node>, heap': map<Addr, Node>, threads: seq<Pc>, t: nat, pc: Pc)
    requires OwnersOk(heap, threads) && t < |threads|
    requires forall a :: a in heap' && heap'[a].owner.Some? ==>
      if heap'[a].owner.value == t then Holds(pc, a) else a in heap && heap[a].owner == heap'[a].owner
    ensures OwnersOk(heap', threads[t := pc])
  {
  }

  predicate Ready(s: State, t: nat) {
    && t < |s.threads| && !s.fault && Linked(s.heap, s.chain, s.born) && OwnersOk(s.heap, s.threads)
    && ThreadOk(s.heap, s.chain, s.born, t, s.threads[t]) && OthersOk(s, s, t)
  }

  lemma {:induction false} QuietStep(s: State, t: nat, pc: Pc)
    requires Ready(s, t) && ThreadOk(s.heap, s.chain, s.born, t, pc)
    requires Private(pc) == Private(s.threads[t]) || Private(pc) == 0
    requires First(pc) == First(s.threads[t]) && Second(pc) == Second(s.threads[t])
    ensures StepOk(s, Goto(s, t, pc), t)
  {
    OwnersMoved(s.heap, s.heap, s.threads, t, pc);
    hide ThreadOk, Linked, OwnersOk, Apart, OtherOk;
    forall u | 0 <= u < |s.threads| && u != t ensures OtherOk(s.heap, s.chain, s.born, pc, u, s.threads[u]) {
      OtherWhenQuiet(s.heap, s.chain, s.born, s.threads[t], pc, u, s.threads[u]);
    }
  }

  lemma {:induction false} NotPrivate(
    heap: map<Addr, Node>, chain: seq<Addr>, born: nat, a: Addr, mover: Pc, u: nat, pc: Pc)
    requires OtherOk(heap, chain, born, mover, u, pc) && a != 0 && (a in chain || a == Private(mover))
    ensures a != Private(pc)
  {
  }

  lemma {:induction false} LockStep(s: State, t: nat, a: Addr, owner: Option<nat>, pc: Pc)
    requires Ready(s, t) && a in s.heap && a != 0
    requires s.heap[a].owner == (if owner == None then Some(t) else None) && (owner == None || owner == Some(t))
    requires a in s.chain || a == Private(s.threads[t])
    requires ThreadOk(s.heap[a := s.heap[a].(owner := owner)], s.chain, s.born, t, pc)
    requires Private(pc) == Private(s.threads[t]) || Private(pc) == 0
    requires forall x :: Holds(pc, x) || x == a <==> Holds(s.threads[t], x) || x == a
    requires Holds(pc, a) <==> owner == Some(t)
    ensures StepOk(s, Goto(s.(heap := s.heap[a := s.heap[a].(owner := owner)]), t, pc), t)
  {
    hide Linked, OwnersOk, CallOk, Apart, ThreadOk;
    var heap' := s.heap[a := s.heap[a].(owner := owner)];
    LockOwners(s, t, a, owner, pc);
    LinkedSame(s.heap, heap', s.chain, s.born);
    forall u | 0 <= u < |s.threads| && u != t ensures OtherOk(heap', s.chain, s.born, pc, u, s.threads[u]) {
      assert OtherOk(s.heap, s.chain, s.born, s.threads[t], u, s.threads[u]);
      NotPrivate(s.heap, s.chain, s.born, a, s.threads[t], u, s.threads[u]);
      OtherWhenLocked(s.heap, s.chain, s.born, a, owner, u, s.threads[u]);
      OtherWhenQuiet(heap', s.chain, s.born, s.threads[t], pc, u, s.threads[u]);
    }
  }

  lemma {:induction false} LockOwners(s: State, t: nat, a: Addr, owner: Option<nat>, pc: Pc)
    requires t < |s.threads| && OwnersOk(s.heap, s.threads) && a in s.heap && (owner == None || owner == Some(t))
    requires forall x :: Holds(pc, x) || x == a <==> Holds(s.threads[t], x) || x == a
    requires Holds(pc, a) <==> owner == Some(t)
    ensures OwnersOk(s.heap[a := s.heap[a].(owner := owner)], s.threads[t := pc])
  {
    hide Holds;
    OwnersMoved(s.heap, s.heap[a := s.heap[a].(owner := owner)], s.threads, t, pc);
  }

  lemma {:induction false} AllocateOwn(s: State, t: nat, slot: Addr)
    requires Ready(s, t) && s.threads[t].PushNew? && slot != 0 && slot !in s.heap
    ensures var s' := PushStep(s, t, slot);
      && Linked(s'.heap, s.chain, s.born) && OwnersOk(s'.heap, s'.threads)
      && ThreadOk(s'.heap, s.chain, s.born, t, s'.threads[t]) && forall i :: 0 <= i < |s.chain| ==> s.chain[i] in s.heap
  {
    hide OthersOk, CallOk, ByBirth, Distinct, LinkAt;
    var s' := PushStep(s, t, slot);
    OwnersMoved(s.heap, s'.heap, s.threads, t, s'.threads[t]);
    LinkedSame(s.heap, s'.heap, s.chain, s.born);
  }

  lemma {:induction false} AllocateStep(s: State, t: nat, slot: Addr)
    requires Ready(s, t) && s.threads[t].PushNew? && slot != 0 && slot !in s.heap
    ensures StepOk(s, PushStep(s, t, slot), t)
  {
    hide ThreadOk, Linked, OwnersOk, Apart, OtherOk;
    var s' := PushStep(s, t, slot);
    AllocateOwn(s, t, slot);
    forall u | 0 <= u < |s.threads| && u != t
      ensures OtherOk(s'.heap, s'.chain, s'.born, s'.threads[t], u, s.threads[u])
    {
      OtherWhenAllocated(s.heap, s.chain, s.born, slot, s.threads[t].value, u, s.threads[u]);
    }
  }

  lemma {:induction false} LinkOwners(s: State, s': State, t: nat, n: Addr)
    requires t < |s.threads| && OwnersOk(s.heap, s.threads) && s.threads[t] == PushLink(n)
    requires n in s.heap && n != HEAD && Mine(s.heap, HEAD, t) && s.heap[n].owner == None && s' == LinkInFront(s, t, n)
    ensures OwnersOk(s'.heap, s'.threads)
  {
    OwnersMoved(s.heap, s'.heap, s.threads, t, PushUnlock);
  }

  lemma {:induction false} LinkOwn(s: State, t: nat)
    requires Ready(s, t) && s.threads[t].PushLink?
    ensures var n := s.threads[t].node;
      n != HEAD && n !in s.chain && n in s.heap && n != 0 && Mine(s.heap, HEAD, t)
    ensures var s' := PushStep(s, t, 0);
      && !s'.fault && Linked(s'.heap, s'.chain, s'.born) && OwnersOk(s'.heap, s'.threads)
      && ThreadOk(s'.heap, s'.chain, s'.born, t, s'.threads[t])
  {
    hide OthersOk, CallOk, ByBirth, Distinct, LinkAt, InFront;
    var s', n := PushStep(s, t, 0), s.threads[t].node;
    assert s.chain[0] == HEAD && n !in s.chain;
    LinkOwners(s, s', t, n);
    LinkedInFront(s.heap, s.chain, s.born, n, s'.heap);
    InFrontHas(s.chain, n);
  }

  lemma {:induction false} LinkStep(s: State, t: nat)
    requires Ready(s, t) && s.threads[t].PushLink?
    ensures StepOk(s, PushStep(s, t, 0), t)
  {
    hide CallOk, OwnersOk, Linked, InFront, Apart, OtherOk, ThreadOk;
    var s', n := PushStep(s, t, 0), s.threads[t].node;
    LinkOwn(s, t);
    forall u | 0 <= u < |s.threads| && u != t
      ensures OtherOk(s'.heap, s'.chain, s'.born, s'.threads[t], u, s.threads[u])
    {
      assert OtherOk(s.heap, s.chain, s.born, s.threads[t], u, s.threads[u]);
      OtherWhenLinked(s.heap, s.chain, s.born, n, s'.heap, t, u, s.threads[u]);
    }
  }

  lemma {:induction false} CallWhenLocked(
    heap: map<Addr, Node>, chain: seq<Addr>, born: nat, a: Addr, owner: Option<nat>, pc: Pc)
    requires Traverses(pc) && pc.cur in heap && a in heap
    ensures CallOk(heap, chain, born, pc) ==> CallOk(heap[a := heap[a].(owner := owner)], chain, born, pc)
  {
    hide CallOk;
    if CallOk(heap, chain, born, pc) {
      CallKept(heap, chain, born, heap[a := heap[a].(owner := owner)], chain, born, pc);
    }
  }

  // ---------- how a traversal keeps its account ----------

  predicate Between(pc: Pc) {
    pc.At? || pc.Want? || pc.Both? || pc.Unlinked? || pc.Destroy?
  }

  lemma {:induction false} AccountKept(heap: map<Addr, Node>, chain: seq<Addr>, born: nat, pc: Pc, pc': Pc)
    requires Between(pc) && Between(pc') && pc'.call == pc.call && pc'.cur == pc.cur && pc.cur in heap
    requires CallOk(heap, chain, born, pc)
    ensures CallOk(heap, chain, born, pc')
  {
  }

  lemma {:induction false} AccountAtStart(heap: map<Addr, Node>, chain: seq<Addr>, born: nat, op: Op)
    requires HEAD in heap
    ensures CallOk(heap, chain, born, At(Call(op, born, []), HEAD))
  {
  }

  lemma {:induction false} AccountAtEnd(heap: map<Addr, Node>, chain: seq<Addr>, born: nat, call: Call, cur: Addr)
    requires cur in heap && CallOk(heap, chain, born, At(call, cur)) && heap[cur].next == 0
    ensures CallOk(heap, chain, born, Leave(call, cur, false))
  {
  }

  /** `remove_if` keeps the next node and moves on to it; the others move on to look at it. */
  lemma {:induction false} AccountMovesOn(heap: map<Addr, Node>, chain: seq<Addr>, born: nat, pc: Pc, pc': Pc)
    requires Linked(heap, chain, born) && pc.Both? && pc.cur in chain && heap[pc.cur].next == pc.next != 0
    requires CallOk(heap, chain, born, pc) && pc.next in heap
    requires
      || (pc' == At(pc.call, pc.next) && pc.call.op.RemoveIf? && !pc.call.op.p(heap[pc.next].data))
      || (pc' == Visit(pc.call, pc.next) && !pc.call.op.RemoveIf?)
    ensures pc.next in chain && CallOk(heap, chain, born, pc')
  {
    var k := NextInOrder(heap, chain, born, pc.cur);
    assert pc.next in chain && heap[pc.next].birth < born;
    forall a | a in chain && a in heap && a != HEAD && Passed(heap, pc', a) && heap[a].birth < pc.call.since
      ensures Dealt(pc.call, heap[a])
    {
      if heap[a].birth == heap[pc.next].birth {
        SameBirthSameNode(heap, chain, born, a, pc.next);
      }
    }
  }

  lemma {:induction false} AccountVisited(
    heap: map<Addr, Node>, chain: seq<Addr>, born: nat, call: Call, cur: Addr, call': Call)
    requires Linked(heap, chain, born) && cur in chain && CallOk(heap, chain, born, Visit(call, cur))
    requires match call.op
      case ForEach => call' == call.(seen := call.seen + [heap[cur].birth])
      case FindFirst(p) => call' == call && !p(heap[cur].data)
      case RemoveIf(p) => false
    ensures CallOk(heap, chain, born, At(call', cur))
  {
    forall a | a in chain && a in heap && a != HEAD && Passed(heap, At(call', cur), a) && heap[a].birth < call.since
      ensures Dealt(call', heap[a])
    {
      if heap[a].birth == heap[cur].birth {
        SameBirthSameNode(heap, chain, born, a, cur);
        assert call.op.ForEach? ==> call'.seen[|call.seen|] == heap[a].birth;
      } else {
        assert Dealt(call, heap[a]);
        assert forall x :: x in call.seen ==> x in call'.seen;
      }
    }
  }

  lemma {:induction false} AccountFound(heap: map<Addr, Node>, chain: seq<Addr>, born: nat, call: Call, cur: Addr)
    requires cur in heap && CallOk(heap, chain, born, Visit(call, cur))
    requires call.op.FindFirst? && call.op.p(heap[cur].data)
    ensures CallOk(heap, chain, born, Leave(call, cur, true))
  {
  }

  lemma {:induction false} AccountUnlinked(
    heap: map<Addr, Node>, chain: seq<Addr>, born: nat, pc: Pc, heap': map<Addr, Node>, chain': seq<Addr>)
    requires pc.Both? && pc.cur in heap && pc.next in heap && CallOk(heap, chain, born, pc)
    requires heap'.Keys == heap.Keys && forall a :: a in heap ==> heap'[a] == heap[a].(next := heap'[a].next)
    requires forall a :: a in chain' ==> a in chain
    ensures CallOk(heap', chain', born, Unlinked(pc.call, pc.cur, pc.next))
  {
  }

  lemma {:induction false} AccountDestroyed(heap: map<Addr, Node>, chain: seq<Addr>, born: nat, pc: Pc)
    requires pc.Destroy? && pc.cur in heap && pc.next != pc.cur && CallOk(heap, chain, born, pc)
    ensures CallOk(heap - {pc.next}, chain, born, At(pc.call, pc.cur))
  {
  }

  // ---------- the steps of a traversal ----------

  lemma {:induction false} AcquireHeadStep(s: State, t: nat, pc: Pc)
    requires Ready(s, t) && HEAD in s.heap && s.heap[HEAD].owner == None
    requires
      || (s.threads[t].PushLock? && pc == PushLink(s.threads[t].node))
      || (s.threads[t].Start? && pc == At(Call(s.threads[t].op, s.born, []), HEAD))
    ensures StepOk(s, Acquire(s, t, HEAD, pc), t)
  {
    var heap' := s.heap[HEAD := s.heap[HEAD].(owner := Some(t))];
    assert s.chain[0] == HEAD;
    assert ThreadOk(heap', s.chain, s.born, t, pc) by {
      if pc.At? {
        AccountAtStart(heap', s.chain, s.born, pc.call.op);
      }
      hide CallOk, Linked, OwnersOk;
    }
    hide ThreadOk, Linked, OwnersOk, CallOk, OthersOk;
    LockStep(s, t, HEAD, Some(t), pc);
  }

  lemma {:induction false} AcquireNextStep(s: State, t: nat)
    requires Ready(s, t) && s.threads[t].Want? && s.threads[t].next in s.heap && s.heap[s.threads[t].next].owner == None
    ensures StepOk(s, TraverseStep(s, t), t)
  {
    var pc := s.threads[t];
    var pc' := Both(pc.call, pc.cur, pc.next);
    var k := NextInOrder(s.heap, s.chain, s.born, pc.cur);
    var heap' := s.heap[pc.next := s.heap[pc.next].(owner := Some(t))];
    hide Linked, OwnersOk, OthersOk;
    assert ThreadOk(heap', s.chain, s.born, t, pc') by {
      AccountKept(s.heap, s.chain, s.born, pc, pc');
      CallWhenLocked(s.heap, s.chain, s.born, pc.next, Some(t), pc');
      hide CallOk;
    }
    hide ThreadOk, CallOk;
    LockStep(s, t, pc.next, Some(t), pc');
  }

  lemma {:induction false} ReleaseLastStep(s: State, t: nat)
    requires Ready(s, t) && (s.threads[t].PushUnlock? || s.threads[t].Leave?)
    ensures StepOk(s, Release(s, t, First(s.threads[t]), Idle), t)
  {
    hide CallOk, Linked, OwnersOk, OthersOk;
    LockStep(s, t, First(s.threads[t]), None, Idle);
  }

  lemma {:induction false} ReleaseUnlinkedStep(s: State, t: nat)
    requires Ready(s, t) && s.threads[t].Unlinked?
    ensures StepOk(s, TraverseStep(s, t), t)
  {
    var pc := s.threads[t];
    var pc' := Destroy(pc.call, pc.cur, pc.next);
    var heap' := s.heap[pc.next := s.heap[pc.next].(owner := None)];
    hide Linked, OwnersOk, OthersOk;
    assert ThreadOk(heap', s.chain, s.born, t, pc') by {
      AccountKept(s.heap, s.chain, s.born, pc, pc');
      CallWhenLocked(s.heap, s.chain, s.born, pc.next, None, pc');
      hide CallOk;
    }
    hide ThreadOk, CallOk;
    LockStep(s, t, pc.next, None, pc');
  }

  /** The traversal lets go of `cur` and goes on with the next node in hand. */
  lemma {:induction false} MoveOnStep(s: State, t: nat, pc': Pc)
    requires Ready(s, t) && s.threads[t].Both? && Mine(s.heap, s.threads[t].next, t)
    requires var pc := s.threads[t];
      || (pc' == At(pc.call, pc.next) && pc.call.op.RemoveIf? && !pc.call.op.p(s.heap[pc.next].data))
      || (pc' == Visit(pc.call, pc.next) && !pc.call.op.RemoveIf?)
    ensures StepOk(s, Release(s, t, s.threads[t].cur, pc'), t)
  {
    var pc := s.threads[t];
    var heap' := s.heap[pc.cur := s.heap[pc.cur].(owner := None)];
    AccountMovesOn(s.heap, s.chain, s.born, pc, pc');
    var k := NextInOrder(s.heap, s.chain, s.born, pc.cur);
    hide Linked, OwnersOk, OthersOk;
    assert ThreadOk(heap', s.chain, s.born, t, pc') by {
      CallWhenLocked(s.heap, s.chain, s.born, pc.cur, None, pc');
      hide CallOk;
    }
    hide ThreadOk, CallOk;
    LockStep(s, t, pc.cur, None, pc');
  }

  lemma {:induction false} LookStep(s: State, t: nat)
    requires Ready(s, t) && s.threads[t].At?
    ensures StepOk(s, TraverseStep(s, t), t)
  {
    hide CallOk, Linked, OwnersOk, OthersOk;
    var pc, pc' := s.threads[t], TraverseStep(s, t).threads[t];
    if s.heap[pc.cur].next == 0 {
      AccountAtEnd(s.heap, s.chain, s.born, pc.call, pc.cur);
    } else {
      AccountKept(s.heap, s.chain, s.born, pc, pc');
    }
    QuietStep(s, t, pc');
  }

  lemma {:induction false} VisitedStep(s: State, t: nat)
    requires Ready(s, t) && s.threads[t].Visit? && !s.threads[t].call.op.RemoveIf?
    ensures StepOk(s, TraverseStep(s, t), t)
  {
    hide CallOk, Linked, OwnersOk, OthersOk;
    var pc, pc' := s.threads[t], TraverseStep(s, t).threads[t];
    if pc'.Leave? {
      AccountFound(s.heap, s.chain, s.born, pc.call, pc.cur);
    } else {
      AccountVisited(s.heap, s.chain, s.born, pc.call, pc.cur, pc'.call);
    }
    QuietStep(s, t, pc');
  }

  lemma {:induction false} UnlinkOwners(s: State, s': State, t: nat)
    requires t < |s.threads| && OwnersOk(s.heap, s.threads) && s.threads[t].Both?
    requires s.threads[t].cur in s.heap && s.threads[t].next in s.heap && s.threads[t].cur != s.threads[t].next
    requires s' == Unlink(s, t, s.threads[t].call, s.threads[t].cur, s.threads[t].next)
    ensures OwnersOk(s'.heap, s'.threads)
  {
    OwnersMoved(s.heap, s'.heap, s.threads, t, s'.threads[t]);
  }

  lemma {:induction false} UnlinkOwn(s: State, t: nat)
    requires Ready(s, t) && s.threads[t].Both? && Mine(s.heap, s.threads[t].next, t)
    ensures var pc := s.threads[t];
      && pc.cur in s.heap && Mine(s.heap, pc.cur, t) && pc.next in s.chain && pc.next != 0 && pc.cur != pc.next
      && var s' := Unlink(s, t, pc.call, pc.cur, pc.next);
         && Linked(s'.heap, s'.chain, s'.born) && OwnersOk(s'.heap, s'.threads)
         && ThreadOk(s'.heap, s'.chain, s'.born, t, s'.threads[t])
  {
    hide OthersOk, CallOk, ByBirth, Distinct, LinkAt, Without;
    var pc := s.threads[t];
    var k := NextInOrder(s.heap, s.chain, s.born, pc.cur);
    var s' := Unlink(s, t, pc.call, pc.cur, pc.next);
    UnlinkOwners(s, s', t);
    LinkedWithout(s.heap, s.chain, s.born, k, s'.heap);
    WithoutHas(s.chain, pc.next);
    AccountUnlinked(s.heap, s.chain, s.born, pc, s'.heap, s'.chain);
  }

  lemma {:induction false} UnlinkStep(s: State, t: nat)
    requires Ready(s, t) && s.threads[t].Both? && Mine(s.heap, s.threads[t].next, t)
    ensures StepOk(s, Unlink(s, t, s.threads[t].call, s.threads[t].cur, s.threads[t].next), t)
  {
    hide CallOk, Linked, OwnersOk, Without, OtherOk, ThreadOk;
    UnlinkOwn(s, t);
    var pc := s.threads[t];
    var s' := Unlink(s, t, pc.call, pc.cur, pc.next);
    forall u | 0 <= u < |s.threads| && u != t
      ensures OtherOk(s'.heap, s'.chain, s'.born, s'.threads[t], u, s.threads[u])
    {
      assert OtherOk(s.heap, s.chain, s.born, pc, u, s.threads[u]);
      OtherWhenUnlinked(s.heap, s.chain, s.born, pc, s'.heap, t, u, s.threads[u]);
    }
  }

  lemma {:induction false} DestroyOwn(s: State, t: nat)
    requires Ready(s, t) && s.threads[t].Destroy?
    ensures var pc, s' := s.threads[t], TraverseStep(s, t);
      && pc.next in s.heap && pc.next !in s.chain && s.heap[pc.next].owner == None && pc.next != 0
      && Linked(s'.heap, s'.chain, s'.born) && OwnersOk(s'.heap, s'.threads)
      && ThreadOk(s'.heap, s'.chain, s'.born, t, s'.threads[t])
  {
    hide OthersOk, CallOk, ByBirth, Distinct, LinkAt, Without;
    var s', pc := TraverseStep(s, t), s.threads[t];
    OwnersMoved(s.heap, s'.heap, s.threads, t, s'.threads[t]);
    LinkedSame(s.heap, s'.heap, s.chain, s.born);
    AccountDestroyed(s.heap, s.chain, s.born, pc);
  }

  lemma {:induction false} DestroyStep(s: State, t: nat)
    requires Ready(s, t) && s.threads[t].Destroy?
    ensures StepOk(s, TraverseStep(s, t), t)
  {
    hide CallOk, Linked, OwnersOk, Without, OtherOk, ThreadOk;
    DestroyOwn(s, t);
    var s', pc := TraverseStep(s, t), s.threads[t];
    forall u | 0 <= u < |s.threads| && u != t
      ensures OtherOk(s'.heap, s'.chain, s'.born, s'.threads[t], u, s.threads[u])
    {
      assert OtherOk(s.heap, s.chain, s.born, pc, u, s.threads[u]);
      OtherWhenDestroyed(s.heap, s.chain, s.born, pc, u, s.threads[u]);
    }
  }

  // ---------- every run ----------

  lemma {:induction false} Finish(s: State, s': State, t: nat)
    requires Inv(s) && StepOk(s, s', t)
    ensures Inv(s')
  {
    hide Inv, OthersOk;
    PartsGiveInv(s, s', t);
  }

  lemma {:induction false} PushKeepsInv(s: State, t: nat, slot: Addr)
    requires Inv(s) && Ready(s, t) && Pushes(s.threads[t])
    ensures Inv(PushStep(s, t, slot))
  {
    var s' := PushStep(s, t, slot);
    assert HEAD in s.heap && s.chain[0] == HEAD;
    hide Inv, StepOk, OthersOk, CallOk, Linked, OwnersOk;
    match s.threads[t]
    case PushNew(_) =>
      if slot != 0 && slot !in s.heap {
        AllocateStep(s, t, slot);
        Finish(s, s', t);
      }
    case PushLock(n) =>
      if s.heap[HEAD].owner == None {
        AcquireHeadStep(s, t, PushLink(n));
        Finish(s, s', t);
      }
    case PushLink(_) => LinkStep(s, t); Finish(s, s', t);
    case PushUnlock => ReleaseLastStep(s, t); Finish(s, s', t);
  }

  lemma {:induction false} BothKeepsInv(s: State, t: nat)
    requires Inv(s) && Ready(s, t) && s.threads[t].Both?
    ensures Inv(TraverseStep(s, t))
  {
    hide Inv, StepOk, OthersOk, CallOk, Linked, OwnersOk;
    var s', pc := TraverseStep(s, t), s.threads[t];
    if !pc.call.op.RemoveIf? {
      MoveOnStep(s, t, Visit(pc.call, pc.next));
    } else if pc.call.op.p(s.heap[pc.next].data) {
      UnlinkStep(s, t);
      NextDiffers(s, t);
    } else {
      MoveOnStep(s, t, At(pc.call, pc.next));
    }
    Finish(s, s', t);
  }

  lemma {:induction false} NextDiffers(s: State, t: nat)
    requires Ready(s, t) && s.threads[t].Both?
    ensures s.threads[t].cur != s.threads[t].next
  {
    var k := NextInOrder(s.heap, s.chain, s.born, s.threads[t].cur);
  }

  lemma {:induction false} WantedIsThere(s: State, t: nat)
    requires Ready(s, t) && s.threads[t].Want?
    ensures s.threads[t].next in s.heap && s.threads[t].next in s.chain && s.threads[t].next != HEAD
  {
    var k := NextInOrder(s.heap, s.chain, s.born, s.threads[t].cur);
  }

  lemma {:induction false} TraverseKeepsInv(s: State, t: nat)
    requires Inv(s) && Ready(s, t) && !Pushes(s.threads[t])
    ensures Inv(TraverseStep(s, t))
  {
    var s' := TraverseStep(s, t);
    assert HEAD in s.heap && s.chain[0] == HEAD;
    assert s.threads[t].Visit? ==> !s.threads[t].call.op.RemoveIf?;
    hide Inv, StepOk, OthersOk, CallOk, Linked, OwnersOk;
    match s.threads[t]
    case Start(op) =>
      if s.heap[HEAD].owner == None {
        AcquireHeadStep(s, t, At(Call(op, s.born, []), HEAD));
        Finish(s, s', t);
      }
    case At(_, _) => LookStep(s, t); Finish(s, s', t);
    case Want(_, _, next) =>
      WantedIsThere(s, t);
      if s.heap[next].owner == None {
        AcquireNextStep(s, t);
        Finish(s, s', t);
      }
    case Both(_, _, _) => BothKeepsInv(s, t);
    case Visit(_, _) => VisitedStep(s, t); Finish(s, s', t);
    case Unlinked(_, _, _) => ReleaseUnlinkedStep(s, t); Finish(s, s', t);
    case Destroy(_, _, _) => DestroyStep(s, t); Finish(s, s', t);
    case Leave(_, _, _) => ReleaseLastStep(s, t); Finish(s, s', t);
    case _ =>
  }

  lemma {:induction false} BeginKeepsInv(s: State, t: nat, pc: Pc)
    requires Inv(s) && Ready(s, t) && s.threads[t].Idle? && (pc.PushNew? || pc.Start?)
    ensures Inv(Goto(s, t, pc))
  {
    hide Inv, OthersOk, Linked, OwnersOk, CallOk;
    QuietStep(s, t, pc);
    Finish(s, Goto(s, t, pc), t);
  }

  lemma {:induction false} AskingKeepsInv(s: State, asked: seq<int>)
    requires Inv(s) && |asked| == |s.asked|
    ensures Inv(s.(asked := asked))
  {
    hide Linked, OwnersOk, ThreadOk, Apart;
  }

  lemma {:induction false} NextKeepsInv(s: State, step: Step)
    requires Inv(s)
    ensures Inv(Next(s, step))
  {
    var t := step.thread;
    if t < |s.threads| {
      InvGivesParts(s, t);
      assert Ready(s, t);
      hide Inv, Ready, PushStep, TraverseStep;
      match step
      case CallPush(_, value) =>
        if s.threads[t].Idle? {
          BeginKeepsInv(s, t, PushNew(value));
          AskingKeepsInv(Goto(s, t, PushNew(value)), s.asked[t := value]);
        }
      case CallTraverse(_, op) =>
        if s.threads[t].Idle? {
          BeginKeepsInv(s, t, Start(op));
        }
      case Run(_, slot) =>
        if Pushes(s.threads[t]) {
          PushKeepsInv(s, t, slot);
        } else {
          TraverseKeepsInv(s, t);
        }
    }
  }

  lemma {:induction false} RunKeepsInv(s: State, steps: seq<Step>)
    requires Inv(s)
    ensures Inv(RunAll(s, steps))
  {
    hide Inv, Next;
    forall r, step | Inv(r) ensures Inv(Next(r, step)) {
      NextKeepsInv(r, step);
    }
    Runs.RunKeeps(Next, Inv, s, steps);
  }

  lemma {:induction false} InitOk(n: nat)
    ensures Inv(Init(n))
  {
    var s := Init(n);
    assert LinkAt(s.heap, s.chain, 0);
  }

  /** No run destroys a locked node, touches a destroyed one, or one that it has not locked. */
  lemma {:induction false} EveryRunIsSafe(n: nat, steps: seq<Step>)
    ensures Inv(RunAll(Init(n), steps)) && !RunAll(Init(n), steps).fault
  {
    InitOk(n);
    RunKeepsInv(Init(n), steps);
  }

  /** When `remove_if` destroys a node, no other thread holds it, waits for it or stands on it. */
  lemma {:induction false} DestroyedIsUnused(s: State, t: nat, u: nat)
    requires Inv(s) && t < |s.threads| && s.threads[t].Destroy? && u < |s.threads| && u != t
    ensures var n := s.threads[t].next;
      && n in s.heap && s.heap[n].owner == None && n !in s.chain
      && !Holds(s.threads[u], n) && !(s.threads[u].Want? && s.threads[u].next == n)
  {
    assert Apart(s.threads[t], s.threads[u]);
    if s.threads[u].Want? {
      InvGivesParts(s, u);
      WantedIsThere(s, u);
    }
  }

  // ---------- order ----------

  predicate Ahead(heap: map<Addr, Node>, pc: Pc, other: Pc) {
    && Traverses(pc) && Traverses(other) && pc.cur in heap && other.cur in heap && pc.cur != HEAD
    && (other.cur == HEAD || heap[pc.cur].birth < heap[other.cur].birth)
  }

  /** Two traversals are never at the same node: one is ahead. */
  lemma {:induction false} OneIsAhead(s: State, t: nat, u: nat)
    requires Inv(s) && t < |s.threads| && u < |s.threads| && t != u
    requires Traverses(s.threads[t]) && Traverses(s.threads[u])
    ensures Ahead(s.heap, s.threads[t], s.threads[u]) != Ahead(s.heap, s.threads[u], s.threads[t])
  {
    var a, b := s.threads[t].cur, s.threads[u].cur;
    assert ThreadOk(s.heap, s.chain, s.born, t, s.threads[t]) && ThreadOk(s.heap, s.chain, s.born, u, s.threads[u]);
    if a != HEAD && b != HEAD && s.heap[a].birth == s.heap[b].birth {
      SameBirthSameNode(s.heap, s.chain, s.born, a, b);
    }
  }

  /** A step of thread `t` moves no other, and changes no birth but that of its own node. */
  ghost predicate OnlyOwn(s: State, s': State, t: nat) {
    && t < |s.threads| == |s'.threads| && (forall u :: 0 <= u < |s.threads| && u != t ==> s'.threads[u] == s.threads[u])
    && (forall a :: a in s.heap && a in s'.heap && a != Private(s.threads[t]) ==> s'.heap[a].birth == s.heap[a].birth)
  }

  lemma {:induction false} PushOnlyOwn(s: State, t: nat, slot: Addr)
    requires t < |s.threads|
    ensures OnlyOwn(s, PushStep(s, t, slot), t)
  {
    hide InFront;
  }

  lemma {:induction false} BothOnlyOwn(s: State, t: nat, call: Call, cur: Addr, next: Addr)
    requires t < |s.threads|
    ensures OnlyOwn(s, BothStep(s, t, call, cur, next), t)
  {
    hide Without;
  }

  lemma {:induction false} VisitOnlyOwn(s: State, t: nat, call: Call, cur: Addr)
    requires t < |s.threads| && cur in s.heap
    ensures OnlyOwn(s, VisitStep(s, t, call, cur), t)
  {
  }

  lemma {:induction false} TraverseOnlyOwn(s: State, t: nat)
    requires t < |s.threads|
    ensures OnlyOwn(s, TraverseStep(s, t), t)
  {
    hide BothStep, VisitStep;
    match s.threads[t]
    case Both(call, cur, next) => BothOnlyOwn(s, t, call, cur, next);
    case Visit(call, cur) => if Mine(s.heap, cur, t) { VisitOnlyOwn(s, t, call, cur); }
    case _ =>
  }

  lemma {:induction false} NextOnlyOwn(s: State, step: Step)
    requires step.thread < |s.threads|
    ensures OnlyOwn(s, Next(s, step), step.thread)
  {
    hide PushStep, TraverseStep;
    if step.Run? {
      PushOnlyOwn(s, step.thread, step.slot);
      TraverseOnlyOwn(s, step.thread);
    }
  }

  /** A step changes no birth of a node in the list. */
  lemma {:induction false} BirthsKept(s: State, step: Step, a: Addr)
    requires Inv(s) && a in s.chain && a in Next(s, step).heap && a != HEAD
    ensures Next(s, step).heap[a].birth == s.heap[a].birth
  {
    hide CallOk;
    var t := step.thread;
    if t < |s.threads| {
      assert ThreadOk(s.heap, s.chain, s.born, t, s.threads[t]) && a != 0;
      BirthKept(s, step, a);
    }
  }

  lemma {:induction false} BirthKept(s: State, step: Step, a: Addr)
    requires step.thread < |s.threads| && a in s.heap && a in Next(s, step).heap && a != Private(s.threads[step.thread])
    ensures Next(s, step).heap[a].birth == s.heap[a].birth
  {
    hide Next, Private;
    NextOnlyOwn(s, step);
  }

  lemma {:induction false} OthersStay(s: State, step: Step)
    ensures |Next(s, step).threads| == |s.threads|
    ensures forall t :: 0 <= t < |s.threads| && t != step.thread ==> Next(s, step).threads[t] == s.threads[t]
  {
    hide PushStep, TraverseStep;
    if step.thread < |s.threads| {
      NextOnlyOwn(s, step);
    }
  }

  /** Where a step takes a traversal: nowhere, or to the next node, which it has locked. */
  ghost predicate StaysOrGoesOn(s: State, pc: Pc, pc': Pc, t: nat) {
    && Traverses(pc) && Traverses(pc') && pc.cur in s.heap && pc.cur in s.chain
    && (pc'.cur != pc.cur ==> pc'.cur == s.heap[pc.cur].next != 0 && Mine(s.heap, pc'.cur, t))
  }

  lemma {:induction false} TraversalGoesOn(s: State, step: Step, t: nat)
    requires Inv(s) && t < |s.threads| == |Next(s, step).threads|
    requires Traverses(s.threads[t]) && Traverses(Next(s, step).threads[t])
    ensures StaysOrGoesOn(s, s.threads[t], Next(s, step).threads[t], t)
  {
    CurrentNode(s, t);
    assert ThreadOk(s.heap, s.chain, s.born, t, s.threads[t]);
    if step.thread != t {
      OthersStay(s, step);
    }
  }

  lemma {:induction false} StaysAhead(heap: map<Addr, Node>, chain: seq<Addr>, born: nat, a: Addr, b: Addr)
    requires Linked(heap, chain, born) && a in chain && b in chain && heap[b].next != 0 && heap[b].next != a
    requires a != HEAD && (b == HEAD || heap[a].birth < heap[b].birth)
    ensures heap[b].next in heap && heap[a].birth < heap[heap[b].next].birth
  {
    var k := NextInOrder(heap, chain, born, b);
    var n := heap[b].next;
    if heap[a].birth == heap[n].birth {
      SameBirthSameNode(heap, chain, born, a, n);
    }
  }

  /** One of two traversals moves, to a node that the other does not hold. */
  lemma {:induction false} OrderKept(s: State, t: nat, pc: Pc, u: nat, other: Pc)
    requires Inv(s) && t < |s.threads| && u < |s.threads| && Ahead(s.heap, s.threads[t], s.threads[u]) && t != u
    requires StaysOrGoesOn(s, s.threads[t], pc, t) && StaysOrGoesOn(s, s.threads[u], other, u)
    requires pc.cur == s.threads[t].cur || other.cur == s.threads[u].cur
    ensures pc.cur in s.chain && other.cur in s.chain && pc.cur != HEAD
    ensures other.cur == HEAD || s.heap[pc.cur].birth < s.heap[other.cur].birth
  {
    var a, b := s.threads[t].cur, s.threads[u].cur;
    CurrentNode(s, t);
    var i := NextInOrder(s.heap, s.chain, s.born, a);
    var j := NextInOrder(s.heap, s.chain, s.born, b);
    if other.cur != b {
      StaysAhead(s.heap, s.chain, s.born, a, b);
    }
  }

  /** Traversals never overtake one another. */
  lemma {:induction false} NoOvertaking(s: State, step: Step, s': State, t: nat, u: nat)
    requires Inv(s) && s' == Next(s, step) && t < |s.threads| == |s'.threads| && u < |s.threads| && t != u
    requires Ahead(s.heap, s.threads[t], s.threads[u]) && Traverses(s'.threads[t]) && Traverses(s'.threads[u])
    ensures Ahead(s'.heap, s'.threads[t], s'.threads[u])
  {
    hide Inv, Next;
    NextKeepsInv(s, step);
    OthersStay(s, step);
    TraversalGoesOn(s, step, t);
    TraversalGoesOn(s, step, u);
    OrderKept(s, t, s'.threads[t], u, s'.threads[u]);
    CurrentNode(s', t);
    CurrentNode(s', u);
    BirthsKept(s, step, s'.threads[t].cur);
    if s'.threads[u].cur != HEAD {
      BirthsKept(s, step, s'.threads[u].cur);
    }
  }

  lemma {:induction false} CurrentNode(s: State, t: nat)
    requires Inv(s) && t < |s.threads| && Traverses(s.threads[t])
    ensures s.threads[t].cur in s.heap && s.threads[t].cur in s.chain && Mine(s.heap, s.threads[t].cur, t)
  {
    assert ThreadOk(s.heap, s.chain, s.born, t, s.threads[t]);
  }

  // ---------- progress ----------

  /** The thread waits for a mutex that somebody holds. */
  predicate Blocked(s: State, t: nat)
    requires t < |s.threads|
  {
    var pc := s.threads[t];
    || ((pc.PushLock? || pc.Start?) && HEAD in s.heap && s.heap[HEAD].owner.Some?)
    || (pc.Want? && pc.next in s.heap && s.heap[pc.next].owner.Some?)
  }

  lemma {:induction false} FurthestAmong(s: State, n: nat) returns (t: nat)
    requires Inv(s) && n <= |s.threads| && exists u :: 0 <= u < n && Traverses(s.threads[u])
    ensures t < n && Traverses(s.threads[t])
    ensures forall u :: 0 <= u < n && u != t ==> !Ahead(s.heap, s.threads[u], s.threads[t])
    decreases n
  {
    var last := n - 1;
    if exists u :: 0 <= u < last && Traverses(s.threads[u]) {
      t := FurthestAmong(s, last);
      if Ahead(s.heap, s.threads[last], s.threads[t]) {
        t := last;
        forall u | 0 <= u < last ensures !Ahead(s.heap, s.threads[u], s.threads[last]) {
        }
      }
    } else {
      t := last;
    }
  }

  lemma {:induction false} FurthestIsFree(s: State, t: nat)
    requires Inv(s) && t < |s.threads| && Traverses(s.threads[t])
    requires forall u :: 0 <= u < |s.threads| && u != t ==> !Ahead(s.heap, s.threads[u], s.threads[t])
    ensures !Blocked(s, t)
  {
    var pc := s.threads[t];
    if pc.Want? && pc.next in s.heap && s.heap[pc.next].owner.Some? {
      CurrentNode(s, t);
      var k := NextInOrder(s.heap, s.chain, s.born, pc.cur);
      var u := s.heap[pc.next].owner.value;
      assert Holds(s.threads[u], pc.next);
      assert ThreadOk(s.heap, s.chain, s.born, u, s.threads[u]) && ThreadOk(s.heap, s.chain, s.born, t, pc);
      if Traverses(s.threads[u]) && s.threads[u].cur != pc.next {
        assert s.threads[u].Both?;
        CurrentNode(s, u);
        SamePredecessor(s.heap, s.chain, s.born, pc.cur, s.threads[u].cur);
      }
    }
  }

  lemma {:induction false} SamePredecessor(heap: map<Addr, Node>, chain: seq<Addr>, born: nat, a: Addr, b: Addr)
    requires Linked(heap, chain, born) && a in chain && b in chain && heap[a].next == heap[b].next != 0
    ensures a == b
  {
    var i := NextInOrder(heap, chain, born, a);
    var j := NextInOrder(heap, chain, born, b);
    assert chain[i + 1] == chain[j + 1];
  }

  /** As long as a call is under way, some thread in a call is not waiting for a held mutex. */
  lemma {:induction false} NoDeadlock(s: State, busy: nat) returns (t: nat)
    requires Inv(s) && busy < |s.threads| && !s.threads[busy].Idle?
    ensures t < |s.threads| && !s.threads[t].Idle? && !Blocked(s, t)
  {
    if exists u :: 0 <= u < |s.threads| && Traverses(s.threads[u]) {
      t := FurthestAmong(s, |s.threads|);
      FurthestIsFree(s, t);
    } else if HEAD in s.heap && s.heap[HEAD].owner.Some? {
      t := s.heap[HEAD].owner.value;
      assert Holds(s.threads[t], HEAD);
    } else {
      t := busy;
    }
  }

  function IndexOf(chain: seq<Addr>, a: Addr): nat {
    if chain == [] || chain[0] == a then 0 else 1 + IndexOf(chain[1..], a)
  }

  lemma {:induction false} IndexIs(chain: seq<Addr>, k: nat)
    requires Distinct(chain) && k < |chain|
    ensures IndexOf(chain, chain[k]) == k
    decreases k
  {
    if k > 0 {
      IndexIs(chain[1..], k - 1);
    }
  }

  /** The number of its own steps that take a thread to the end of its call, at most. A traversal takes
      less than eight for each node that is still to come. */
  function StepsLeft(chain: seq<Addr>, pc: Pc): int {
    match pc
    case Idle => 0
    case PushNew(_) => 4
    case PushLock(_) => 3
    case PushLink(_) => 2
    case PushUnlock => 1
    case Start(_) => 8 * |chain|
    case At(_, cur) => 8 * (|chain| - 1 - IndexOf(chain, cur)) + 4
    case Want(_, cur, _) => 8 * (|chain| - 1 - IndexOf(chain, cur)) + 3
    case Both(_, cur, _) => 8 * (|chain| - 1 - IndexOf(chain, cur)) + 2
    case Visit(_, cur) => 8 * (|chain| - 1 - IndexOf(chain, cur)) + 5
    case Unlinked(_, cur, _) => 8 * (|chain| - 1 - IndexOf(chain, cur)) + 6
    case Destroy(_, cur, _) => 8 * (|chain| - 1 - IndexOf(chain, cur)) + 5
    case Leave(_, _, _) => 1
  }

  lemma {:induction false} InChain(chain: seq<Addr>, a: Addr)
    ensures a in chain ==> IndexOf(chain, a) < |chain| && chain[IndexOf(chain, a)] == a
    ensures a !in chain ==> IndexOf(chain, a) == |chain|
    decreases |chain|
  {
    if chain != [] && chain[0] != a {
      InChain(chain[1..], a);
    }
  }

  lemma {:induction false} NoFault(s: State)
    requires Inv(s)
    ensures !s.fault && |s.asked| == |s.threads|
  {
  }

  /** A thread in a call that is not waiting for a held mutex comes closer to the end of its call; `new`
      needs a free address. */
  lemma {:induction false} UnblockedAdvances(s: State, t: nat, slot: Addr)
    requires Inv(s) && t < |s.threads| && !s.threads[t].Idle? && !Blocked(s, t) && slot != 0 && slot !in s.heap
    ensures var s' := Next(s, Run(t, slot));
      |s'.threads| == |s.threads| && 0 <= StepsLeft(s'.chain, s'.threads[t]) < StepsLeft(s.chain, s.threads[t])
  {
    hide Inv, PushStep, TraverseStep, Blocked, StepsLeft;
    NextKeepsInv(s, Run(t, slot));
    NoFault(s);
    NoFault(Next(s, Run(t, slot)));
    if Pushes(s.threads[t]) {
      UnblockedPushAdvances(s, t, slot);
    } else {
      UnblockedTraverseAdvances(s, t);
    }
    StepsLeftBounded(Next(s, Run(t, slot)), t);
  }

  lemma {:induction false} StepsLeftBounded(s: State, t: nat)
    requires Inv(s) && t < |s.threads|
    ensures StepsLeft(s.chain, s.threads[t]) >= 0
  {
    hide IndexOf, CallOk;
    assert ThreadOk(s.heap, s.chain, s.born, t, s.threads[t]);
    InChain(s.chain, First(s.threads[t]));
  }

  lemma {:induction false} UnblockedPushAdvances(s: State, t: nat, slot: Addr)
    requires t < |s.threads| && Pushes(s.threads[t]) && !Blocked(s, t) && slot != 0 && slot !in s.heap
    requires !PushStep(s, t, slot).fault
    ensures var s' := PushStep(s, t, slot);
      |s'.threads| == |s.threads| && StepsLeft(s'.chain, s'.threads[t]) < StepsLeft(s.chain, s.threads[t])
  {
    hide IndexOf, InFront, AskedOf;
  }

  lemma {:induction false} UnblockedTraverseAdvances(s: State, t: nat)
    requires Inv(s) && t < |s.threads| && !Pushes(s.threads[t]) && !s.threads[t].Idle? && !Blocked(s, t)
    requires !TraverseStep(s, t).fault
    ensures var s' := TraverseStep(s, t);
      |s'.threads| == |s.threads| && StepsLeft(s'.chain, s'.threads[t]) < StepsLeft(s.chain, s.threads[t])
  {
    hide Linked, OwnersOk, IndexOf, CallOk, Without;
    var pc := s.threads[t];
    assert ThreadOk(s.heap, s.chain, s.born, t, pc);
    if pc.Both? {
      NextIndex(s, t);
    } else if Traverses(pc) {
      InChain(s.chain, pc.cur);
    } else {
      HeadIndex(s);
    }
  }

  lemma {:induction false} HeadIndex(s: State)
    requires Inv(s)
    ensures IndexOf(s.chain, HEAD) == 0 && |s.chain| > 0
  {
  }

  /** The next node is the one after the current one, until it is taken out. */
  lemma {:induction false} NextIndex(s: State, t: nat)
    requires Inv(s) && t < |s.threads| && s.threads[t].Both?
    ensures var pc := s.threads[t];
      && IndexOf(s.chain, pc.next) == IndexOf(s.chain, pc.cur) + 1 < |s.chain|
      && IndexOf(Without(s.chain, pc.next), pc.cur) == IndexOf(s.chain, pc.cur)
      && |Without(s.chain, pc.next)| == |s.chain| - 1
  {
    var pc := s.threads[t];
    assert ThreadOk(s.heap, s.chain, s.born, t, pc);
    var k := NextInOrder(s.heap, s.chain, s.born, pc.cur);
    hide CallOk, LinkAt, ByBirth, Distinct, Without, IndexOf;
    SkippedIndex(s.chain, k);
  }

  lemma {:induction false} SkippedIndex(chain: seq<Addr>, k: nat)
    requires Distinct(chain) && k + 1 < |chain|
    ensures IndexOf(chain, chain[k]) == k && IndexOf(chain, chain[k + 1]) == k + 1
    ensures IndexOf(Without(chain, chain[k + 1]), chain[k]) == k && |Without(chain, chain[k + 1])| == |chain| - 1
  {
    hide IndexOf, Without;
    WithoutSkips(chain, k);
    IndexIs(chain, k);
    IndexIs(chain, k + 1);
    SkipAvoids(chain, Without(chain, chain[k + 1]), k);
    IndexIs(Without(chain, chain[k + 1]), k);
  }

  // ---------- what the operations promise ----------

  lemma {:induction false} AllDealt(s: State, t: nat)
    requires Inv(s) && t < |s.threads| && s.threads[t].Leave? && !s.threads[t].found
    ensures forall a :: a in s.chain && a != HEAD && s.heap[a].birth < s.threads[t].call.since ==>
      Dealt(s.threads[t].call, s.heap[a])
  {
    CurrentNode(s, t);
    var k := NextInOrder(s.heap, s.chain, s.born, s.threads[t].cur);
    assert ThreadOk(s.heap, s.chain, s.born, t, s.threads[t]);
  }

  /** When `remove_if` ends, no node is left that was in the list when it locked the head and that
      satisfies the predicate. */
  lemma {:induction false} RemoveIfRemoves(s: State, t: nat, p: int -> bool, a: Addr)
    requires Inv(s) && t < |s.threads| && s.threads[t].Leave? && s.threads[t].call.op == RemoveIf(p)
    requires a in s.chain && a != HEAD && a in s.heap && s.heap[a].birth < s.threads[t].call.since
    ensures !p(s.heap[a].data)
  {
    assert ThreadOk(s.heap, s.chain, s.born, t, s.threads[t]);
    AllDealt(s, t);
  }

  /** When `for_each` ends, it has shown each node to the function at most once and in list order,
      among them all that were there when it locked the head and are there still. */
  lemma {:induction false} ForEachShowsAll(s: State, t: nat, a: Addr)
    requires Inv(s) && t < |s.threads| && s.threads[t].Leave? && s.threads[t].call.op.ForEach?
    requires a in s.chain && a != HEAD && a in s.heap && s.heap[a].birth < s.threads[t].call.since
    ensures s.heap[a].birth in s.threads[t].call.seen
    ensures var seen := s.threads[t].call.seen; forall i, j :: 0 <= i < j < |seen| ==> seen[i] > seen[j]
  {
    assert ThreadOk(s.heap, s.chain, s.born, t, s.threads[t]);
    AllDealt(s, t);
  }

  /** `find_first_if` stops at a match, all nodes before it that were there when it locked the head
      and are there still do not match, and if it finds none there is none among them at all. */
  lemma {:induction false} FindFirstFinds(s: State, t: nat, p: int -> bool, a: Addr)
    requires Inv(s) && t < |s.threads| && s.threads[t].Leave? && s.threads[t].call.op == FindFirst(p)
    requires a in s.chain && a != HEAD && a in s.heap && s.heap[a].birth < s.threads[t].call.since
    ensures s.threads[t].found ==> s.threads[t].cur in s.heap && p(s.heap[s.threads[t].cur].data)
    ensures s.threads[t].found && s.heap[a].birth > s.heap[s.threads[t].cur].birth ==> !p(s.heap[a].data)
    ensures !s.threads[t].found ==> !p(s.heap[a].data)
  {
    assert ThreadOk(s.heap, s.chain, s.born, t, s.threads[t]);
    if !s.threads[t].found {
      AllDealt(s, t);
    }
  }

  ghost predicate PutInFront(chain: seq<Addr>, chain': seq<Addr>) {
    |chain| > 0 && exists n :: n !in chain && chain' == [chain[0], n] + chain[1..]
  }

  ghost predicate TakenOut(chain: seq<Addr>, chain': seq<Addr>, a: Addr) {
    exists k :: 1 <= k < |chain| && chain[k] == a && chain' == chain[..k] + chain[k + 1..]
  }

  lemma {:induction false} UnlinkTakesOut(s: State, t: nat)
    requires Inv(s) && t < |s.threads| && s.threads[t].Both?
    ensures s.threads[t].next in s.heap && TakenOut(s.chain, Without(s.chain, s.threads[t].next), s.threads[t].next)
  {
    var pc := s.threads[t];
    assert ThreadOk(s.heap, s.chain, s.born, t, pc);
    var k := NextInOrder(s.heap, s.chain, s.born, pc.cur);
    WithoutAt(s.chain, k + 1);
  }

  /** The list changes only by one node put in front, or by one node taken out that satisfies the
      predicate of a `remove_if`; the order of the others stays. */
  lemma {:induction false} ListChanges(s: State, step: Step)
    requires Inv(s)
    ensures var s' := Next(s, step);
      || s'.chain == s.chain
      || PutInFront(s.chain, s'.chain)
      || (step.thread < |s.threads| &&
           var pc := s.threads[step.thread];
           pc.Both? && pc.call.op.RemoveIf? && pc.next in s.heap && pc.call.op.p(s.heap[pc.next].data) &&
           TakenOut(s.chain, s'.chain, pc.next))
  {
    hide Next, Inv, TakenOut, PutInFront, Without, InFront;
    var t := step.thread;
    if t >= |s.threads| {
      NoThreadNoStep(s, step);
    } else if s.threads[t].Both? {
      UnlinkTakesOut(s, t);
      BothChanges(s, step);
    } else if s.threads[t].PushLink? {
      PushesInFront(s, t);
      LinkChanges(s, step);
    } else {
      OtherStepsKeepChain(s, step);
    }
  }

  lemma {:induction false} NoThreadNoStep(s: State, step: Step)
    requires step.thread >= |s.threads|
    ensures Next(s, step) == s
  {
  }

  lemma {:induction false} BothChanges(s: State, step: Step)
    requires step.thread < |s.threads| && s.threads[step.thread].Both?
    ensures var s', pc := Next(s, step), s.threads[step.thread];
      && s'.pushed == s.pushed
      && (|| (s'.chain == s.chain && s'.removed == s.removed)
          || (pc.call.op.RemoveIf? && pc.next in s.heap && pc.call.op.p(s.heap[pc.next].data) &&
              s'.chain == Without(s.chain, pc.next) && s'.removed == s.removed + [s.heap[pc.next].data]))
  {
    hide Without;
  }

  lemma {:induction false} LinkChanges(s: State, step: Step)
    requires step.thread < |s.threads| && s.threads[step.thread].PushLink?
    ensures var s', t := Next(s, step), step.thread;
      && s'.removed == s.removed
      && (|| (s'.chain == s.chain && s'.pushed == s.pushed)
          || (s'.chain == InFront(s.chain, s.threads[t].node) && s'.pushed == s.pushed + [AskedOf(s.asked, t)] &&
              s.threads[t].node in s'.heap && s'.heap[s.threads[t].node].birth == s.born))
  {
    hide InFront, AskedOf;
  }

  lemma {:induction false} PushesInFront(s: State, t: nat)
    requires Inv(s) && t < |s.threads| && s.threads[t].PushLink?
    ensures PutInFront(s.chain, InFront(s.chain, s.threads[t].node))
  {
    hide CallOk;
    assert ThreadOk(s.heap, s.chain, s.born, t, s.threads[t]);
    assert s.chain != [] && s.threads[t].node !in s.chain;
  }

  lemma {:induction false} OtherStepsKeepChain(s: State, step: Step)
    requires step.thread < |s.threads| && !s.threads[step.thread].Both? && !s.threads[step.thread].PushLink?
    ensures var s' := Next(s, step); s'.chain == s.chain && s'.pushed == s.pushed && s'.removed == s.removed
  {
  }

  // ---------- nobody delays a traversal ----------

  lemma {:induction false} IndexInFront(chain: seq<Addr>, chain': seq<Addr>, a: Addr)
    requires PutInFront(chain, chain') && Distinct(chain) && a in chain && a != chain[0]
    ensures IndexOf(chain', a) == IndexOf(chain, a) + 1 && |chain'| == |chain| + 1
  {
    hide IndexOf;
    var k :| 1 <= k < |chain| && chain[k] == a;
    IndexIs(chain, k);
    assert chain'[k + 1] == a;
    assert Distinct(chain');
    IndexIs(chain', k + 1);
  }

  lemma {:induction false} IndexTakenOut(chain: seq<Addr>, chain': seq<Addr>, b: Addr, a: Addr)
    requires TakenOut(chain, chain', b) && Distinct(chain) && a in chain && a != b
    ensures IndexOf(chain', a) >= IndexOf(chain, a) - 1 && |chain'| == |chain| - 1
  {
    hide IndexOf;
    var j :| 1 <= j < |chain| && chain[j] == b && chain' == chain[..j] + chain[j + 1..];
    var k :| 0 <= k < |chain| && chain[k] == a;
    IndexIs(chain, k);
    assert Distinct(chain');
    var k' := if k < j then k else k - 1;
    assert chain'[k'] == a;
    IndexIs(chain', k');
  }

  lemma {:induction false} HeldApart(s: State, t: nat, u: nat)
    requires Inv(s) && t < |s.threads| && u < |s.threads| && t != u && Traverses(s.threads[u])
    ensures s.threads[u].cur in s.chain && Distinct(s.chain) && s.chain != [] && s.chain[0] == HEAD
    ensures s.threads[t].Both? ==> s.threads[t].next != s.threads[u].cur
    ensures s.threads[t].PushLink? ==> s.threads[u].cur != HEAD
  {
    hide CallOk, OwnersOk, LinkAt, ByBirth;
    assert ThreadOk(s.heap, s.chain, s.born, t, s.threads[t]) && ThreadOk(s.heap, s.chain, s.born, u, s.threads[u]);
  }

  /** What the others do brings a traversal that has locked the head no further from its end: so it makes
      no more steps of its own than it had left then. */
  lemma {:induction false} OthersNeverDelay(s: State, step: Step, u: nat)
    requires Inv(s) && u < |s.threads| && u != step.thread && Traverses(s.threads[u])
    ensures StepsLeft(Next(s, step).chain, s.threads[u]) <= StepsLeft(s.chain, s.threads[u])
  {
    hide Inv, Next, IndexOf, PutInFront, TakenOut, Without, InFront, Distinct;
    var t, a := step.thread, s.threads[u].cur;
    if t >= |s.threads| {
      NoThreadNoStep(s, step);
    } else {
      HeldApart(s, t, u);
      if s.threads[t].Both? {
        UnlinkTakesOut(s, t);
        BothChanges(s, step);
        if Next(s, step).chain != s.chain {
          IndexTakenOut(s.chain, Next(s, step).chain, s.threads[t].next, a);
        }
      } else if s.threads[t].PushLink? {
        PushesInFront(s, t);
        LinkChanges(s, step);
        if Next(s, step).chain != s.chain {
          IndexInFront(s.chain, Next(s, step).chain, a);
        }
      } else {
        OtherStepsKeepChain(s, step);
      }
    }
  }

  // ---------- values ----------

  function DataOf(heap: map<Addr, Node>, a: Addr): int {
    if a in heap then heap[a].data else 0
  }

  function DataIn(heap: map<Addr, Node>, nodes: seq<Addr>): seq<int> {
    seq(|nodes|, i requires 0 <= i < |nodes| => DataOf(heap, nodes[i]))
  }

  /** The data in the list, in order. */
  function Values(heap: map<Addr, Node>, chain: seq<Addr>): seq<int> {
    if chain == [] then [] else DataIn(heap, chain[1..])
  }

  /** The thread carries the value that it was called with. */
  predicate Carries(heap: map<Addr, Node>, pc: Pc, value: int) {
    && (pc.PushNew? ==> pc.value == value)
    && (pc.PushLock? || pc.PushLink? ==> pc.node in heap && heap[pc.node].data == value)
  }

  predicate DataOk(heap: map<Addr, Node>, chain: seq<Addr>, pushed: seq<int>) {
    forall a :: a in chain && a != HEAD && a in heap ==>
      heap[a].birth < |pushed| && heap[a].data == pushed[heap[a].birth]
  }

  predicate InHands(threads: seq<Pc>, a: Addr) {
    exists t :: 0 <= t < |threads| && Private(threads[t]) == a
  }

  /** Every node in the list holds the value it was pushed with, and the values pushed are, each as often,
      those in the list and those taken out. */
  ghost predicate Balanced(s: State) {
    && |s.pushed| == s.born && DataOk(s.heap, s.chain, s.pushed)
    && multiset(s.pushed) == multiset(Values(s.heap, s.chain)) + multiset(s.removed)
  }

  /** And every node that is not in the list is in one thread's hands. */
  ghost predicate Books(s: State) {
    && |s.asked| == |s.threads| && Balanced(s)
    && (forall t :: 0 <= t < |s.threads| ==> Carries(s.heap, s.threads[t], s.asked[t]))
    && 0 !in s.heap && forall a :: a in s.heap && a !in s.chain ==> InHands(s.threads, a)
  }

  /** What a step of thread `t` does to the nodes. */
  ghost predicate NodesStay(s: State, s': State, t: nat) {
    && t < |s.threads| == |s'.threads| == |s.asked| == |s'.asked|
    && s'.threads == s.threads[t := s'.threads[t]] && s'.asked == s.asked[t := s'.asked[t]]
    && var pc, pc' := s.threads[t], s'.threads[t];
       && (forall a :: a in s.heap && a in s'.heap ==> s'.heap[a].data == s.heap[a].data)
       && (forall a :: a in s.heap && a !in s'.heap ==> pc.Destroy? && a == pc.next)
       && (0 in s'.heap ==> 0 in s.heap)
       && (forall a :: a in s'.heap && a !in s'.chain && a != Private(pc') && a != 0 ==>
             a in s.heap && a !in s.chain && a != Private(pc))
       && Carries(s'.heap, pc', s'.asked[t])
  }

  /** The nodes are locked or relinked, and nothing is added or taken away. */
  lemma {:induction false} SameNodes(s: State, s': State, t: nat)
    requires t < |s.threads| == |s'.threads| == |s.asked| && s'.asked == s.asked && s'.chain == s.chain
    requires s'.threads == s.threads[t := s'.threads[t]] && s'.heap.Keys == s.heap.Keys
    requires forall a :: a in s.heap ==> s'.heap[a].data == s.heap[a].data
    requires Private(s'.threads[t]) == Private(s.threads[t]) && Carries(s'.heap, s'.threads[t], s.asked[t])
    ensures NodesStay(s, s', t)
  {
  }

  lemma {:induction false} AcquireNodes(s: State, t: nat, a: Addr, pc: Pc)
    requires t < |s.threads| == |s.asked| && Carries(s.heap, s.threads[t], s.asked[t])
    requires Carries(s.heap, pc, s.asked[t]) && Private(pc) == Private(s.threads[t])
    ensures NodesStay(s, Acquire(s, t, a, pc), t)
  {
    hide NodesStay, Private;
    assert s.threads[t := s.threads[t]] == s.threads;
    SameNodes(s, Acquire(s, t, a, pc), t);
  }

  lemma {:induction false} ReleaseNodes(s: State, t: nat, a: Addr, pc: Pc)
    requires t < |s.threads| == |s.asked| && Carries(s.heap, s.threads[t], s.asked[t])
    requires Carries(s.heap, pc, s.asked[t]) && Private(pc) == Private(s.threads[t])
    ensures NodesStay(s, Release(s, t, a, pc), t)
  {
    hide NodesStay, Private;
    assert s.threads[t := s.threads[t]] == s.threads;
    SameNodes(s, Release(s, t, a, pc), t);
  }

  lemma {:induction false} AllocateNodes(s: State, t: nat, slot: Addr)
    requires t < |s.threads| == |s.asked| && s.threads[t].PushNew? && Carries(s.heap, s.threads[t], s.asked[t])
    requires slot != 0 && slot !in s.heap
    ensures NodesStay(s, PushStep(s, t, slot), t)
  {
    assert s.asked[t := s.asked[t]] == s.asked;
  }

  lemma {:induction false} LinkNodes(s: State, t: nat, n: Addr)
    requires t < |s.threads| == |s.asked| && s.threads[t] == PushLink(n) && Carries(s.heap, s.threads[t], s.asked[t])
    requires s.chain != [] && HEAD in s.heap
    ensures NodesStay(s, LinkInFront(s, t, n), t)
  {
    hide InFront, AskedOf;
    InFrontHas(s.chain, n);
    assert s.threads[t := s.threads[t]] == s.threads && s.asked[t := s.asked[t]] == s.asked;
  }

  lemma {:induction false} PushNodes(s: State, t: nat, slot: Addr)
    requires t < |s.threads| == |s.asked| && Carries(s.heap, s.threads[t], s.asked[t]) && Pushes(s.threads[t])
    requires s.chain != [] && HEAD in s.heap
    ensures NodesStay(s, PushStep(s, t, slot), t)
  {
    hide LinkInFront, Acquire, Release, NodesStay;
    match s.threads[t]
    case PushNew(_) =>
      if slot == 0 || slot in s.heap {
        assert s.threads[t := s.threads[t]] == s.threads;
        SameNodes(s, s, t);
      } else {
        AllocateNodes(s, t, slot);
      }
    case PushLock(n) => AcquireNodes(s, t, HEAD, PushLink(n));
    case PushLink(n) => LinkNodes(s, t, n);
    case PushUnlock => ReleaseNodes(s, t, HEAD, Idle);
  }

  lemma {:induction false} UnlinkNodes(s: State, t: nat, call: Call, cur: Addr, next: Addr)
    requires t < |s.threads| == |s.asked| && s.threads[t] == Both(call, cur, next) && cur in s.heap && next in s.heap
    ensures NodesStay(s, Unlink(s, t, call, cur, next), t)
  {
    hide Without;
    WithoutHas(s.chain, next);
    assert s.threads[t := s.threads[t]] == s.threads && s.asked[t := s.asked[t]] == s.asked;
  }

  lemma {:induction false} BothNodes(s: State, t: nat, call: Call, cur: Addr, next: Addr)
    requires t < |s.threads| == |s.asked| && s.threads[t] == Both(call, cur, next)
    ensures NodesStay(s, BothStep(s, t, call, cur, next), t)
  {
    hide Unlink, Release, NodesStay;
    if !Mine(s.heap, cur, t) || !Mine(s.heap, next, t) {
      assert s.threads[t := s.threads[t]] == s.threads;
      SameNodes(s, BothStep(s, t, call, cur, next), t);
    } else if call.op.RemoveIf? && call.op.p(s.heap[next].data) {
      UnlinkNodes(s, t, call, cur, next);
    } else {
      ReleaseNodes(s, t, cur, if call.op.RemoveIf? then At(call, next) else Visit(call, next));
    }
  }

  lemma {:induction false} DestroyNodes(s: State, t: nat)
    requires t < |s.threads| == |s.asked| && s.threads[t].Destroy?
    ensures NodesStay(s, TraverseStep(s, t), t)
  {
    assert s.threads[t := s.threads[t]] == s.threads && s.asked[t := s.asked[t]] == s.asked;
  }

  lemma {:induction false} LookNodes(s: State, t: nat)
    requires t < |s.threads| == |s.asked| && (s.threads[t].At? || s.threads[t].Visit? || s.threads[t].Idle?)
    ensures NodesStay(s, TraverseStep(s, t), t)
  {
    hide NodesStay;
    assert s.threads[t := s.threads[t]] == s.threads;
    SameNodes(s, TraverseStep(s, t), t);
  }

  lemma {:induction false} TraverseNodes(s: State, t: nat)
    requires t < |s.threads| == |s.asked| && !Pushes(s.threads[t])
    ensures NodesStay(s, TraverseStep(s, t), t)
  {
    hide BothStep, VisitStep, Acquire, Release, NodesStay;
    match s.threads[t]
    case Start(op) => AcquireNodes(s, t, HEAD, At(Call(op, s.born, []), HEAD));
    case Want(call, cur, next) => AcquireNodes(s, t, next, Both(call, cur, next));
    case Both(call, cur, next) => BothNodes(s, t, call, cur, next);
    case Unlinked(call, cur, next) => ReleaseNodes(s, t, next, Destroy(call, cur, next));
    case Destroy(_, _, _) => DestroyNodes(s, t);
    case Leave(_, cur, _) => ReleaseNodes(s, t, cur, Idle);
    case _ => LookNodes(s, t);
  }

  lemma {:induction false} CallNodes(s: State, t: nat, pc: Pc, value: int)
    requires t < |s.threads| == |s.asked| && s.threads[t].Idle? && (pc == PushNew(value) || pc.Start?)
    ensures NodesStay(s, Goto(s, t, pc).(asked := s.asked[t := value]), t)
  {
  }

  lemma {:induction false} NextNodes(s: State, step: Step)
    requires step.thread < |s.threads| == |s.asked| && s.chain != [] && HEAD in s.heap
    requires Carries(s.heap, s.threads[step.thread], s.asked[step.thread])
    ensures NodesStay(s, Next(s, step), step.thread)
  {
    hide PushStep, TraverseStep, NodesStay;
    var t := step.thread;
    assert s.threads[t := s.threads[t]] == s.threads && s.asked[t := s.asked[t]] == s.asked;
    match step
    case CallPush(_, value) =>
      if s.threads[t].Idle? {
        CallNodes(s, t, PushNew(value), value);
      } else {
        SameNodes(s, s, t);
      }
    case CallTraverse(_, op) =>
      if s.threads[t].Idle? {
        CallNodes(s, t, Start(op), s.asked[t]);
      } else {
        SameNodes(s, s, t);
      }
    case Run(_, slot) =>
      if Pushes(s.threads[t]) {
        PushNodes(s, t, slot);
      } else {
        TraverseNodes(s, t);
      }
  }

  lemma {:induction false} ValuesSame(heap: map<Addr, Node>, heap': map<Addr, Node>, chain: seq<Addr>)
    requires forall a :: a in chain ==> a in heap && a in heap' && heap'[a].data == heap[a].data
    ensures Values(heap', chain) == Values(heap, chain)
  {
  }

  lemma {:induction false} DataInParts(heap: map<Addr, Node>, first: seq<Addr>, second: seq<Addr>)
    ensures DataIn(heap, first + second) == DataIn(heap, first) + DataIn(heap, second)
  {
  }

  lemma {:induction false} ValuesInFront(heap: map<Addr, Node>, chain: seq<Addr>, n: Addr)
    requires chain != []
    ensures Values(heap, InFront(chain, n)) == [DataOf(heap, n)] + Values(heap, chain)
  {
    hide DataIn, DataOf;
    assert InFront(chain, n)[1..] == [n] + chain[1..];
    DataInParts(heap, [n], chain[1..]);
    DataInOne(heap, n);
  }

  lemma {:induction false} DataInOne(heap: map<Addr, Node>, n: Addr)
    ensures DataIn(heap, [n]) == [DataOf(heap, n)]
  {
  }

  lemma {:induction false} ValuesTakenOut(heap: map<Addr, Node>, chain: seq<Addr>, chain': seq<Addr>, a: Addr)
    requires TakenOut(chain, chain', a)
    ensures multiset(Values(heap, chain)) == multiset(Values(heap, chain')) + multiset{DataOf(heap, a)}
  {
    hide DataIn, DataOf;
    var k :| 1 <= k < |chain| && chain[k] == a && chain' == chain[..k] + chain[k + 1..];
    assert chain[1..] == chain[1..k] + ([a] + chain[k + 1..]);
    assert chain'[1..] == chain[1..k] + chain[k + 1..];
    DataInParts(heap, chain[1..k], [a] + chain[k + 1..]);
    DataInParts(heap, [a], chain[k + 1..]);
    DataInParts(heap, chain[1..k], chain[k + 1..]);
    DataInOne(heap, a);
  }

  lemma {:induction false} CarriesKept(s: State, s': State, t: nat, u: nat)
    requires NodesStay(s, s', t) && u < |s.threads| && Carries(s.heap, s.threads[u], s.asked[u])
    requires u != t ==> Apart(s.threads[t], s.threads[u])
    requires s.threads[t].Destroy? ==> s.threads[t].next != 0
    ensures Carries(s'.heap, s'.threads[u], s'.asked[u])
  {
  }

  lemma {:induction false} StraysKept(s: State, s': State, t: nat, a: Addr)
    requires NodesStay(s, s', t) && a in s'.heap && a !in s'.chain && a != 0
    requires a in s.heap && a !in s.chain ==> InHands(s.threads, a)
    ensures InHands(s'.threads, a)
  {
    hide Carries, Private;
    if a == Private(s'.threads[t]) {
      assert 0 <= t < |s'.threads|;
    } else {
      var u :| 0 <= u < |s.threads| && Private(s.threads[u]) == a;
      assert s'.threads[u] == s.threads[u];
    }
  }

  /** The nodes of the list keep their data, and their births but for one that is linked in. */
  lemma {:induction false} ChainDataKept(s: State, step: Step, a: Addr)
    requires Inv(s) && step.thread < |s.threads| && NodesStay(s, Next(s, step), step.thread)
    requires Inv(Next(s, step)) && a in s.chain && a in Next(s, step).chain
    ensures a in s.heap && a in Next(s, step).heap && Next(s, step).heap[a].data == s.heap[a].data
    ensures a != HEAD ==> Next(s, step).heap[a].birth == s.heap[a].birth
  {
    hide Next, NodesStay, ThreadOk, OwnersOk, Apart;
    var s' := Next(s, step);
    assert a in s.heap && a in s'.heap;
    DataStays(s, s', step.thread, a);
    if a != HEAD {
      BirthsKept(s, step, a);
    }
  }

  lemma {:induction false} DataStays(s: State, s': State, t: nat, a: Addr)
    requires NodesStay(s, s', t) && a in s.heap && a in s'.heap
    ensures s'.heap[a].data == s.heap[a].data
  {
  }

  lemma {:induction false} ChainStays(s: State, step: Step)
    requires Inv(s) && Inv(Next(s, step)) && step.thread < |s.threads| && NodesStay(s, Next(s, step), step.thread)
    ensures forall a :: a in s.chain && a in Next(s, step).chain ==>
      && a in s.heap && a in Next(s, step).heap && Next(s, step).heap[a].data == s.heap[a].data
      && (a != HEAD ==> Next(s, step).heap[a].birth == s.heap[a].birth)
  {
    hide Inv, Next, NodesStay;
    forall a | a in s.chain && a in Next(s, step).chain
      ensures a in s.heap && a in Next(s, step).heap && Next(s, step).heap[a].data == s.heap[a].data
      ensures a != HEAD ==> Next(s, step).heap[a].birth == s.heap[a].birth
    {
      ChainDataKept(s, step, a);
    }
  }

  lemma {:induction false} BalancedWhenSame(s: State, s': State)
    requires Balanced(s) && s'.chain == s.chain && s'.pushed == s.pushed && s'.removed == s.removed && s'.born == s.born
    requires forall a :: a in s.chain ==>
      a in s.heap && a in s'.heap && s'.heap[a].data == s.heap[a].data &&
      (a != HEAD ==> s'.heap[a].birth == s.heap[a].birth)
    ensures Balanced(s')
  {
    hide Values;
    ValuesSame(s.heap, s'.heap, s.chain);
  }

  lemma {:induction false} BalancedWhenLinked(s: State, s': State, n: Addr, value: int)
    requires Balanced(s) && s.chain != [] && s'.chain == InFront(s.chain, n) && s'.removed == s.removed
    requires s'.pushed == s.pushed + [value] && s'.born == s.born + 1
    requires n in s'.heap && s'.heap[n].data == value && s'.heap[n].birth == s.born
    requires forall a :: a in s.chain ==>
      a in s.heap && a in s'.heap && s'.heap[a].data == s.heap[a].data &&
      (a != HEAD ==> s'.heap[a].birth == s.heap[a].birth)
    ensures Balanced(s')
  {
    hide Values, InFront;
    InFrontHas(s.chain, n);
    ValuesSame(s.heap, s'.heap, s.chain);
    ValuesInFront(s'.heap, s.chain, n);
  }

  lemma {:induction false} BalancedWhenTakenOut(s: State, s': State, n: Addr)
    requires Balanced(s) && TakenOut(s.chain, s'.chain, n) && s'.pushed == s.pushed && s'.born == s.born
    requires n in s.heap && s'.removed == s.removed + [s.heap[n].data]
    requires forall a :: a in s'.chain ==>
      a in s.chain && a in s.heap && a in s'.heap && s'.heap[a].data == s.heap[a].data &&
      (a != HEAD ==> s'.heap[a].birth == s.heap[a].birth)
    ensures Balanced(s')
  {
    hide Values, TakenOut;
    ValuesTakenOut(s.heap, s.chain, s'.chain, n);
    ValuesSame(s.heap, s'.heap, s'.chain);
  }

  lemma {:induction false} BirthCounted(s: State, step: Step)
    requires step.thread < |s.threads| && |s.pushed| == s.born
    ensures |Next(s, step).pushed| == Next(s, step).born
  {
    hide AskedOf, Without, InFront;
  }

  lemma {:induction false} NextBalances(s: State, step: Step)
    requires Inv(s) && Inv(Next(s, step)) && step.thread < |s.threads| && Balanced(s)
    requires NodesStay(s, Next(s, step), step.thread) && Carries(s.heap, s.threads[step.thread], s.asked[step.thread])
    ensures Balanced(Next(s, step))
  {
    hide Inv, Next, NodesStay, Balanced, InFront, Without, TakenOut, Values;
    var t, s' := step.thread, Next(s, step);
    BalancedCounts(s);
    BirthCounted(s, step);
    ChainStays(s, step);
    ChainThere(s);
    if s.threads[t].Both? {
      UnlinkTakesOut(s, t);
      BothChanges(s, step);
      if s'.chain == s.chain && s'.removed == s.removed {
        BalancedWhenSame(s, s');
      } else {
        WithoutHas(s.chain, s.threads[t].next);
        BalancedWhenTakenOut(s, s', s.threads[t].next);
      }
    } else if s.threads[t].PushLink? {
      LinkChanges(s, step);
      if s'.chain == s.chain && s'.pushed == s.pushed {
        BalancedWhenSame(s, s');
      } else {
        InFrontHas(s.chain, s.threads[t].node);
        DataStays(s, s', t, s.threads[t].node);
        BalancedWhenLinked(s, s', s.threads[t].node, s.asked[t]);
      }
    } else {
      OtherStepsKeepChain(s, step);
      BalancedWhenSame(s, s');
    }
  }

  lemma {:induction false} BalancedCounts(s: State)
    requires Balanced(s)
    ensures |s.pushed| == s.born
  {
  }

  lemma {:induction false} ChainThere(s: State)
    requires Inv(s)
    ensures s.chain != [] && HEAD in s.heap && |s.asked| == |s.threads| && forall a :: a in s.chain ==> a in s.heap
  {
    hide OwnersOk, ThreadOk, Apart, ByBirth, LinkAt, Distinct;
    assert s.chain[0] in s.heap;
  }

  lemma {:induction false} ZeroUnused(s: State, s': State, t: nat)
    requires NodesStay(s, s', t) && 0 !in s.heap
    ensures 0 !in s'.heap
  {
  }

  lemma {:induction false} StrayWas(s: State, s': State, t: nat)
    requires NodesStay(s, s', t) && Books(s)
    ensures forall a :: a in s'.heap && a !in s'.chain && a != 0 ==> InHands(s'.threads, a)
  {
    hide NodesStay, InHands, Balanced, Carries;
    forall a | a in s'.heap && a !in s'.chain && a != 0 ensures InHands(s'.threads, a) {
      StraysKept(s, s', t, a);
    }
  }

  lemma {:induction false} AllCarry(s: State, s': State, t: nat)
    requires Inv(s) && NodesStay(s, s', t) && Books(s)
    ensures forall u :: 0 <= u < |s'.threads| ==> Carries(s'.heap, s'.threads[u], s'.asked[u])
  {
    hide Linked, OwnersOk, Balanced, Carries, InHands, CallOk, Apart;
    assert ThreadOk(s.heap, s.chain, s.born, t, s.threads[t]);
    forall u | 0 <= u < |s'.threads| ensures Carries(s'.heap, s'.threads[u], s'.asked[u]) {
      CarriesKept(s, s', t, u);
    }
  }

  lemma {:induction false} NextKeepsBooks(s: State, step: Step)
    requires Inv(s) && Inv(Next(s, step)) && Books(s)
    ensures Books(Next(s, step))
  {
    hide Inv, Next, NodesStay, Balanced, Carries, InHands;
    var t, s' := step.thread, Next(s, step);
    if t >= |s.threads| {
      NoThreadNoStep(s, step);
    } else {
      ChainThere(s);
      NoFault(s');
      NextNodes(s, step);
      NextBalances(s, step);
      ZeroUnused(s, s', t);
      StrayWas(s, s', t);
      AllCarry(s, s', t);
      OthersStay(s, step);
    }
  }

  /** All that every run keeps. */
  ghost predicate Sound(s: State) {
    Inv(s) && Books(s)
  }

  lemma {:induction false} NextKeepsSound(s: State, step: Step)
    requires Sound(s)
    ensures Sound(Next(s, step))
  {
    hide Inv, Next, Books;
    NextKeepsInv(s, step);
    NextKeepsBooks(s, step);
  }

  lemma {:induction false} InitIsSound(n: nat)
    ensures Sound(Init(n))
  {
    hide Inv;
    InitOk(n);
  }

  lemma {:induction false} RunIsSound(n: nat, steps: seq<Step>)
    ensures Sound(RunAll(Init(n), steps))
  {
    hide Sound, Next, Init;
    InitIsSound(n);
    forall s, step | Sound(s) ensures Sound(Next(s, step)) {
      NextKeepsSound(s, step);
    }
    Runs.RunKeeps(Next, Sound, Init(n), steps);
  }

  /** In every run, every node of the list holds the value with which the push that linked it was called,
      and the values pushed are, each as often, those in the list and those taken out. */
  lemma {:induction false} ValuesAccounted(n: nat, steps: seq<Step>)
    ensures var s := RunAll(Init(n), steps);
      && (forall a :: a in s.chain && a != HEAD ==>
            a in s.heap && s.heap[a].birth < |s.pushed| && s.heap[a].data == s.pushed[s.heap[a].birth])
      && multiset(s.pushed) == multiset(Values(s.heap, s.chain)) + multiset(s.removed)
  {
    hide RunAll, Init, Inv, Values;
    RunIsSound(n, steps);
    ChainThere(RunAll(Init(n), steps));
  }

  /** When no call is under way the nodes are exactly those of the list. */
  lemma {:induction false} NoLeak(n: nat, steps: seq<Step>)
    requires forall t :: 0 <= t < |RunAll(Init(n), steps).threads| ==> RunAll(Init(n), steps).threads[t].Idle?
    ensures var s := RunAll(Init(n), steps); forall a :: a in s.heap <==> a in s.chain
  {
    hide RunAll, Init, Inv, Balanced, Carries;
    RunIsSound(n, steps);
    ChainThere(RunAll(Init(n), steps));
  }

  lemma {:induction false} SoundGivesLengths(s: State)
    requires Sound(s)
    ensures |s.asked| == |s.threads|
  {
  }

  // ---------- the object ----------

  /** The steps done in place. `born` and `chain` are history. */
  class List {
    var heap: map<Addr, Node>
    var threads: seq<Pc>
    var fault: bool
    var born: nat
    ghost var chain: seq<Addr>
    ghost var asked: seq<int>
    ghost var pushed: seq<int>
    ghost var removed: seq<int>

    ghost function Current(): State
      reads this
    {
      State(heap, threads, fault, chain, born, asked, pushed, removed)
    }

    /** The invariant and the books, and with them what the operations promise, hold between any two steps. */
    ghost predicate Valid()
      reads this
    {
      Sound(Current())
    }

    constructor (n: nat)
      ensures Current() == Init(n) && Valid()
    {
      heap, threads, fault, born, chain := map[HEAD := Node(0, 0, 0, None)], seq(n, _ => Idle), false, 0, [HEAD];
      asked, pushed, removed := seq(n, _ => 0), [], [];
      new;
      InitIsSound(n);
    }

    /** Thread `t` enters `push_front`. */
    method StartPush(t: nat, value: int)
      requires Valid()
      modifies this
      ensures Current() == Next(old(Current()), CallPush(t, value)) && Valid()
    {
      hide Sound;
      SoundGivesLengths(Current());
      NextKeepsSound(Current(), CallPush(t, value));
      if t < |threads| && threads[t].Idle? {
        asked := asked[t := value];
        Move(t, PushNew(value));
      }
    }

    /** Thread `t` enters `for_each`, `find_first_if` or `remove_if`. */
    method StartTraverse(t: nat, op: Op)
      requires Valid()
      modifies this
      ensures Current() == Next(old(Current()), CallTraverse(t, op)) && Valid()
    {
      hide Sound;
      SoundGivesLengths(Current());
      NextKeepsSound(Current(), CallTraverse(t, op));
      if t < |threads| && threads[t].Idle? {
        Move(t, Start(op));
      }
    }

    method Move(t: nat, pc: Pc)
      requires t < |threads|
      modifies this`threads
      ensures Current() == Goto(old(Current()), t, pc)
    {
      threads := threads[t := pc];
    }

    method Lock(t: nat, a: Addr, pc: Pc)
      requires t < |threads|
      modifies this`heap, this`threads, this`fault
      ensures Current() == Acquire(old(Current()), t, a, pc)
    {
      if a !in heap {
        fault := true;
      } else if heap[a].owner.None? {
        heap := heap[a := heap[a].(owner := Some(t))];
        Move(t, pc);
      }
    }

    method Unlock(t: nat, a: Addr, pc: Pc)
      requires t < |threads|
      modifies this`heap, this`threads, this`fault
      ensures Current() == Release(old(Current()), t, a, pc)
    {
      if Mine(heap, a, t) {
        heap := heap[a := heap[a].(owner := None)];
        Move(t, pc);
      } else {
        fault := true;
      }
    }

    method PushFront(t: nat, n: Addr)
      requires t < |threads|
      modifies this
      ensures Current() == LinkInFront(old(Current()), t, n)
    {
      if n in heap && Mine(heap, HEAD, t) && n != HEAD {
        heap := heap[n := heap[n].(next := heap[HEAD].next, birth := born)];
        heap := heap[HEAD := heap[HEAD].(next := n)];
        chain, born, pushed := InFront(chain, n), born + 1, pushed + [AskedOf(asked, t)];
        Move(t, PushUnlock);
      } else {
        fault := true;
      }
    }

    method TakeOut(t: nat, call: Call, cur: Addr, next: Addr)
      requires t < |threads| && cur in heap && next in heap
      modifies this`heap, this`threads, this`fault, this`chain, this`removed
      ensures Current() == Unlink(old(Current()), t, call, cur, next)
    {
      if cur == next {
        fault := true;
      } else {
        removed := removed + [heap[next].data];
        heap := heap[cur := heap[cur].(next := heap[next].next)];
        heap := heap[next := heap[next].(next := 0)];
        chain := Without(chain, next);
        Move(t, Unlinked(call, cur, next));
      }
    }

    method StepPush(t: nat, slot: Addr)
      requires t < |threads|
      modifies this
      ensures Current() == PushStep(old(Current()), t, slot)
    {
      match threads[t] {
        case PushNew(value) =>
          if slot != 0 && slot !in heap {
            heap := heap[slot := Node(0, value, 0, None)];
            Move(t, PushLock(slot));
          }
        case PushLock(n) => Lock(t, HEAD, PushLink(n));
        case PushLink(n) => PushFront(t, n);
        case PushUnlock => Unlock(t, HEAD, Idle);
        case _ =>
      }
    }

    method StepBoth(t: nat, call: Call, cur: Addr, next: Addr)
      requires t < |threads|
      modifies this`heap, this`threads, this`fault, this`chain, this`removed
      ensures Current() == BothStep(old(Current()), t, call, cur, next)
    {
      if !Mine(heap, cur, t) || !Mine(heap, next, t) {
        fault := true;
      } else {
        match call.op {
          case RemoveIf(p) =>
            if p(heap[next].data) {
              TakeOut(t, call, cur, next);
            } else {
              Unlock(t, cur, At(call, next));
            }
          case _ => Unlock(t, cur, Visit(call, next));
        }
      }
    }

    method StepVisit(t: nat, call: Call, cur: Addr)
      requires t < |threads| && Mine(heap, cur, t)
      modifies this`threads
      ensures Current() == VisitStep(old(Current()), t, call, cur)
    {
      match call.op {
        case ForEach => Move(t, At(call.(seen := call.seen + [heap[cur].birth]), cur));
        case FindFirst(p) =>
          if p(heap[cur].data) {
            Move(t, Leave(call, cur, true));
          } else {
            Move(t, At(call, cur));
          }
        case RemoveIf(_) => Move(t, At(call, cur));
      }
    }

    method Look(t: nat, call: Call, cur: Addr)
      requires t < |threads| && Mine(heap, cur, t)
      modifies this`threads
      ensures Current() ==
        Goto(old(Current()), t,
          if heap[cur].next == 0 then Leave(call, cur, false) else Want(call, cur, heap[cur].next))
    {
      Move(t, if heap[cur].next == 0 then Leave(call, cur, false) else Want(call, cur, heap[cur].next));
    }

    method Delete(t: nat, a: Addr, pc: Pc)
      requires t < |threads|
      modifies this`heap, this`threads
      ensures Current() == Goto(old(Current()).(heap := old(heap) - {a}), t, pc)
    {
      heap := heap - {a};
      Move(t, pc);
    }

    method StepTraverse(t: nat)
      requires t < |threads|
      modifies this
      ensures Current() == TraverseStep(old(Current()), t)
    {
      hide Acquire, Release, BothStep, VisitStep, Mine;
      match threads[t] {
        case Start(op) => Lock(t, HEAD, At(Call(op, born, []), HEAD));
        case At(call, cur) =>
          if Mine(heap, cur, t) {
            Look(t, call, cur);
          } else {
            fault := true;
          }
        case Want(call, cur, next) => Lock(t, next, Both(call, cur, next));
        case Both(call, cur, next) => StepBoth(t, call, cur, next);
        case Visit(call, cur) =>
          if Mine(heap, cur, t) {
            StepVisit(t, call, cur);
          } else {
            fault := true;
          }
        case Unlinked(call, cur, next) => Unlock(t, next, Destroy(call, cur, next));
        case Destroy(call, cur, next) =>
          if next !in heap || heap[next].owner.Some? {
            fault := true;
          } else {
            Delete(t, next, At(call, cur));
          }
        case Leave(_, cur, _) => Unlock(t, cur, Idle);
        case _ =>
      }
    }

    /** The next step of thread `t`. */
    method Step(t: nat, slot: Addr)
      requires Valid()
      modifies this
      ensures Current() == Next(old(Current()), Run(t, slot)) && Valid()
    {
      hide Sound, PushStep, TraverseStep;
      SoundGivesLengths(Current());
      NextKeepsSound(Current(), Run(t, slot));
      if t < |threads| {
        if Pushes(threads[t]) {
          StepPush(t, slot);
        } else {
          StepTraverse(t);
        }
      }
    }
  }
}
