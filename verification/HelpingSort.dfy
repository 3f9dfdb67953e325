/**
 * The quicksort whose waiting threads help: `sorter::do_sort` over a stack of pending chunks, and
 * the same function over the three thread pools (one queue, local queues, work stealing).
 *
 * A call of `do_sort` is a frame. Frames are numbered in the order in which they start, so the
 * index of a frame is its start time. `below` is the frame it was called on top of and `target`
 * says who receives its result: the caller of the whole sort, the parent `do_sort`, or the promise
 * of a claimed chunk.
 */
module HelpingSort {
  import opened Options

  datatype Target = Root | Parent | ChunkOf(id: nat)

  datatype Pc =
    | Entry
    | Split(lower: seq<int>, higher: seq<int>)
    | Pushed(chunk: nat, higher: seq<int>)
    | Calling(chunk: nat, higher: seq<int>, callee: nat)
    | Waiting(chunk: nat, higher: seq<int>, sorted: seq<int>)
    | Polling(chunk: nat, higher: seq<int>, sorted: seq<int>)
    | Helping(chunk: nat, higher: seq<int>, sorted: seq<int>, callee: nat)
    | Finished(out: seq<int>)
    | Gone(out: seq<int>)

  datatype Frame = Frame(thread: nat, input: seq<int>, below: Option<nat>, target: Target, pc: Pc)

  datatype Chunk = Chunk(data: seq<int>, creator: nat, claimer: Option<nat>, promise: Option<seq<int>>)

  /** Thread 0 is the caller of the sort, the others are workers. Queue 0 is shared and queue `t`
      is local to worker `t`; `tops[t]` is the newest frame on the stack of thread `t`. */
  datatype State = State(
    frames: seq<Frame>, chunks: seq<Chunk>, queues: seq<seq<nat>>, tops: seq<Option<nat>>)

  datatype Pool = ChunkStack | PoolQueue | LocalQueues | StealingQueues

  datatype Config = Config(pool: Pool, maxWorkers: nat)

  datatype End = Front | Back

  datatype Action = Partition(lower: seq<int>, higher: seq<int>) | Go | Claim(k: nat) | Miss

  // ---------- sorting ----------

  ghost predicate Sorted(s: seq<int>) {
    forall i, j :: 0 <= i < j < |s| ==> s[i] <= s[j]
  }

  ghost predicate SortedPermutation(out: seq<int>, input: seq<int>) {
    Sorted(out) && multiset(out) == multiset(input)
  }

  /** What `std::partition` promises around the first element of `input`; the order inside the two
      parts is left open. */
  ghost predicate IsSplit(input: seq<int>, lower: seq<int>, higher: seq<int>) {
    && input != []
    && multiset(lower) + multiset(higher) == multiset(input[1..])
    && (forall x :: x in lower ==> x < input[0])
    && (forall x :: x in higher ==> input[0] <= x)
  }

  // ---------- queues ----------

  /** The queue on which thread `t` puts a new chunk. */
  function PushQueue(pool: Pool, t: nat): nat {
    if pool.ChunkStack? || pool.PoolQueue? then 0 else t
  }

  /** The queues that `t` tries in turn, and the end from which it takes. */
  function ScanOrder(pool: Pool, threads: nat, t: nat): seq<(nat, End)> {
    match pool
    case ChunkStack => [(0, Back)]
    case PoolQueue => [(0, Front)]
    case LocalQueues => (if t == 0 then [] else [(t, Front)]) + [(0, Front)]
    case StealingQueues =>
      (if t == 0 then [] else [(t, Back)]) + [(0, Front)] +
      (if threads <= 1 then []
       else seq(threads - 1, (i: nat) => (1 + ((if t == 0 then 0 else t - 1) + i + 1) % (threads - 1), Front)))
  }

  predicate CanClaim(cfg: Config, s: State, t: nat, k: nat) {
    var order := ScanOrder(cfg.pool, |s.tops|, t);
    k < |order| && order[k].0 < |s.queues| && s.queues[order[k].0] != []
  }

  /** With one queue a failed attempt means that it was empty. With several, others may have pushed
      to the queues already tried, so a failed scan says nothing about the present. */
  predicate CanMiss(cfg: Config, s: State, t: nat) {
    |ScanOrder(cfg.pool, |s.tops|, t)| > 1 || !CanClaim(cfg, s, t, 0)
  }

  // ---------- steps ----------

  predicate Live(s: State, f: nat) {
    f < |s.frames| && !s.frames[f].pc.Gone?
  }

  ghost predicate Enabled(cfg: Config, s: State, t: nat, a: Action) {
    t < |s.tops| &&
    match s.tops[t]
    case None => t != 0 && ((a.Claim? && CanClaim(cfg, s, t, a.k)) || (a.Miss? && CanMiss(cfg, s, t)))
    case Some(f) =>
      f < |s.frames| &&
      match s.frames[f].pc
      case Entry =>
        if s.frames[f].input == [] then a == Go
        else a.Partition? && IsSplit(s.frames[f].input, a.lower, a.higher)
      case Split(_, _) => a == Go && PushQueue(cfg.pool, t) < |s.queues|
      case Pushed(_, _) => a == Go
      case Waiting(c, _, _) => a == Go && c < |s.chunks| && s.frames[f].input != []
      case Polling(_, _, _) =>
        (a.Claim? && CanClaim(cfg, s, t, a.k)) || (a.Miss? && CanMiss(cfg, s, t))
      case Finished(_) =>
        && a == Go
        && (s.frames[f].target.ChunkOf? ==> s.frames[f].target.id < |s.chunks|)
        && (s.frames[f].below.Some? ==> s.frames[f].below.value < |s.frames|)
      case _ => false
  }

  function SetPc(s: State, f: nat, pc: Pc): State
    requires f < |s.frames|
  {
    s.(frames := s.frames[f := s.frames[f].(pc := pc)])
  }

  /** Puts the lower part in a new chunk and pushes the chunk. */
  function PushChunk(cfg: Config, s: State, t: nat, f: nat): State
    requires f < |s.frames| && s.frames[f].pc.Split? && PushQueue(cfg.pool, t) < |s.queues|
  {
    var pc := s.frames[f].pc;
    var c := |s.chunks|;
    var q := PushQueue(cfg.pool, t);
    SetPc(s, f, Pushed(c, pc.higher)).(
      chunks := s.chunks + [Chunk(pc.lower, f, None, None)],
      queues := s.queues[q := s.queues[q] + [c]])
  }

  /** Starts a worker if there are fewer than the maximum (only the stack of chunks does this), then
      calls `do_sort` on the higher part. */
  function CallHigher(cfg: Config, s: State, t: nat, f: nat): State
    requires f < |s.frames| && t < |s.tops| && s.frames[f].pc.Pushed?
  {
    var pc := s.frames[f].pc;
    var g := |s.frames|;
    var spawn := cfg.pool.ChunkStack? && |s.tops| - 1 < cfg.maxWorkers;
    var called := SetPc(s, f, Calling(pc.chunk, pc.higher, g));
    State(
      called.frames + [Frame(t, pc.higher, Some(f), Parent, Entry)],
      s.chunks,
      if spawn then s.queues + [[]] else s.queues,
      s.tops[t := Some(g)] + (if spawn then [None] else []))
  }

  function CheckFuture(s: State, f: nat): State
    requires f < |s.frames| && s.frames[f].pc.Waiting? && s.frames[f].pc.chunk < |s.chunks|
    requires s.frames[f].input != []
  {
    var fr := s.frames[f];
    match s.chunks[fr.pc.chunk].promise
    case None => SetPc(s, f, Polling(fr.pc.chunk, fr.pc.higher, fr.pc.sorted))
    case Some(low) =>
      SetPc(s, f, Finished(low + [fr.input[0]] + fr.pc.sorted))
  }

  function Taken(cfg: Config, s: State, t: nat, k: nat): nat
    requires CanClaim(cfg, s, t, k)
  {
    var e := ScanOrder(cfg.pool, |s.tops|, t)[k];
    var q := s.queues[e.0];
    if e.1 == Front then q[0] else q[|q| - 1]
  }

  function QueuesAfterTake(cfg: Config, s: State, t: nat, k: nat): seq<seq<nat>>
    requires CanClaim(cfg, s, t, k)
  {
    var e := ScanOrder(cfg.pool, |s.tops|, t)[k];
    var q := s.queues[e.0];
    s.queues[e.0 := if e.1 == Front then q[1..] else q[..|q| - 1]]
  }

  /** Pops a chunk and starts `do_sort` on it, on top of the waiting frame if there is one. */
  function ClaimChunk(cfg: Config, s: State, t: nat, k: nat): State
    requires t < |s.tops| && CanClaim(cfg, s, t, k)
    requires Taken(cfg, s, t, k) < |s.chunks|
    requires s.tops[t].Some? ==> s.tops[t].value < |s.frames| && s.frames[s.tops[t].value].pc.Polling?
  {
    var c := Taken(cfg, s, t, k);
    var g := |s.frames|;
    var frames :=
      match s.tops[t]
      case None => s.frames
      case Some(f) =>
        var pc := s.frames[f].pc;
        s.frames[f := s.frames[f].(pc := Helping(pc.chunk, pc.higher, pc.sorted, g))];
    State(
      frames + [Frame(t, s.chunks[c].data, s.tops[t], ChunkOf(c), Entry)],
      s.chunks[c := s.chunks[c].(claimer := Some(g))],
      QueuesAfterTake(cfg, s, t, k),
      s.tops[t := Some(g)])
  }

  /** The pc of a frame after the call that was running on top of it returns `out`. */
  function Resumed(pc: Pc, out: seq<int>): Pc {
    match pc
    case Calling(c, h, _) => Waiting(c, h, out)
    case Helping(c, h, sorted, _) => Waiting(c, h, sorted)
    case _ => pc
  }

  /** Hands the result over and drops the frame. */
  function Return(s: State, t: nat, f: nat): State
    requires f < |s.frames| && t < |s.tops| && s.frames[f].pc.Finished?
    requires s.frames[f].target.ChunkOf? ==> s.frames[f].target.id < |s.chunks|
    requires s.frames[f].below.Some? ==> s.frames[f].below.value < |s.frames|
  {
    var fr := s.frames[f];
    var gone := s.frames[f := fr.(pc := Gone(fr.pc.out))];
    State(
      match fr.below
      case None => gone
      case Some(b) => gone[b := gone[b].(pc := Resumed(gone[b].pc, fr.pc.out))],
      match fr.target
      case ChunkOf(c) => s.chunks[c := s.chunks[c].(promise := Some(fr.pc.out))]
      case _ => s.chunks,
      s.queues,
      s.tops[t := fr.below])
  }

  function Next(cfg: Config, s: State, t: nat, a: Action): State
    requires Enabled(cfg, s, t, a)
    requires a.Claim? ==> Taken(cfg, s, t, a.k) < |s.chunks|
  {
    match s.tops[t]
    case None => if a.Claim? then ClaimChunk(cfg, s, t, a.k) else s
    case Some(f) =>
      match s.frames[f].pc
      case Entry => if a.Partition? then SetPc(s, f, Split(a.lower, a.higher)) else SetPc(s, f, Finished([]))
      case Split(_, _) => PushChunk(cfg, s, t, f)
      case Pushed(_, _) => CallHigher(cfg, s, t, f)
      case Waiting(_, _, _) => CheckFuture(s, f)
      case Polling(c, h, sorted) =>
        if a.Claim? then ClaimChunk(cfg, s, t, a.k) else SetPc(s, f, Waiting(c, h, sorted))
      case Finished(_) => Return(s, t, f)
      case _ => s
  }

  /** Everything but looking in vain: a future not ready yet, or nothing to claim. */
  predicate Productive(s: State, t: nat, a: Action)
    requires t < |s.tops|
  {
    && !a.Miss?
    && (s.tops[t].Some? && s.tops[t].value < |s.frames| && s.frames[s.tops[t].value].pc.Waiting? ==>
          var c := s.frames[s.tops[t].value].pc.chunk;
          c < |s.chunks| && s.chunks[c].promise.Some?)
  }

  predicate OnTop(s: State, t: nat, f: nat) {
    t < |s.tops| && s.tops[t] == Some(f) && f < |s.frames|
  }

  // ---------- invariant ----------

  predicate Suspended(pc: Pc) {
    pc.Calling? || pc.Helping?
  }

  predicate HoldsChunk(pc: Pc, c: nat) {
    (pc.Pushed? || pc.Calling? || pc.Waiting? || pc.Polling? || pc.Helping?) && pc.chunk == c
  }

  predicate WaitsOrWaited(pc: Pc) {
    pc.Waiting? || pc.Polling? || pc.Helping?
  }

  /** A frame that is not on top names the frame above it, and the two agree. */
  predicate CallLink(s: State, f: nat)
    requires f < |s.frames|
  {
    var fr := s.frames[f];
    Suspended(fr.pc) ==>
      var g := fr.pc.callee;
      && f < g && Live(s, g)
      && s.frames[g].below == Some(f) && s.frames[g].thread == fr.thread
      && (fr.pc.Calling? ==> s.frames[g].target == Parent && s.frames[g].input == fr.pc.higher)
      && (fr.pc.Helping? ==> s.frames[g].target.ChunkOf?)
  }

  predicate BelowLink(s: State, f: nat)
    requires f < |s.frames|
  {
    var fr := s.frames[f];
    match fr.below
    case None => !fr.target.Parent?
    case Some(b) => b < f && Live(s, b) && Suspended(s.frames[b].pc) && s.frames[b].pc.callee == f
  }

  predicate TargetLink(s: State, f: nat)
    requires f < |s.frames|
  {
    var fr := s.frames[f];
    match fr.target
    case Root => f == 0
    case Parent => f != 0
    case ChunkOf(c) =>
      && f != 0 && c < |s.chunks|
      && s.chunks[c].claimer == Some(f) && s.chunks[c].promise == None && s.chunks[c].data == fr.input
  }

  ghost predicate DataOk(s: State, f: nat)
    requires f < |s.frames|
  {
    var fr := s.frames[f];
    && (fr.pc.Split? ==> IsSplit(fr.input, fr.pc.lower, fr.pc.higher))
    && (HasChunk(fr.pc) ==>
          && fr.pc.chunk < |s.chunks|
          && s.chunks[fr.pc.chunk].creator == f
          && IsSplit(fr.input, s.chunks[fr.pc.chunk].data, fr.pc.higher))
    && (WaitsOrWaited(fr.pc) ==> SortedPermutation(fr.pc.sorted, fr.pc.higher))
    && (fr.pc.Finished? || fr.pc.Gone? ==> SortedPermutation(fr.pc.out, fr.input))
  }

  predicate HasChunk(pc: Pc) {
    pc.Pushed? || pc.Calling? || pc.Waiting? || pc.Polling? || pc.Helping?
  }

  ghost predicate FrameOk(s: State, f: nat)
    requires f < |s.frames|
  {
    && s.frames[f].thread < |s.tops|
    && DataOk(s, f)
    && (Live(s, f) ==>
          && CallLink(s, f) && BelowLink(s, f) && TargetLink(s, f)
          && (!Suspended(s.frames[f].pc) ==> s.tops[s.frames[f].thread] == Some(f)))
  }

  predicate TopOk(s: State, t: nat)
    requires t < |s.tops|
  {
    s.tops[t].Some? ==>
      var f := s.tops[t].value;
      Live(s, f) && s.frames[f].thread == t && !Suspended(s.frames[f].pc)
  }

  function Home(cfg: Config, s: State, c: nat): nat
    requires c < |s.chunks| && s.chunks[c].creator < |s.frames|
  {
    PushQueue(cfg.pool, s.frames[s.chunks[c].creator].thread)
  }

  ghost predicate ChunkOk(cfg: Config, s: State, c: nat)
    requires c < |s.chunks|
  {
    var ch := s.chunks[c];
    && ch.creator < |s.frames|
    && (ch.promise == None ==> Live(s, ch.creator) && HoldsChunk(s.frames[ch.creator].pc, c))
    && match ch.claimer
       case None => ch.promise == None && Home(cfg, s, c) < |s.queues| && c in s.queues[Home(cfg, s, c)]
       case Some(g) =>
         && ch.creator < g < |s.frames|
         && (ch.promise == None ==> Live(s, g) && s.frames[g].target == ChunkOf(c))
         && (ch.promise.Some? ==> SortedPermutation(ch.promise.value, ch.data))
  }

  ghost predicate QueueOk(cfg: Config, s: State, q: nat)
    requires q < |s.queues|
  {
    && (forall i :: 0 <= i < |s.queues[q]| ==> Queued(cfg, s, q, s.queues[q][i]))
    && (forall i, j :: 0 <= i < j < |s.queues[q]| ==> s.queues[q][i] != s.queues[q][j])
  }

  predicate Queued(cfg: Config, s: State, q: nat, c: nat) {
    c < |s.chunks| && s.chunks[c].claimer == None && s.chunks[c].creator < |s.frames| && Home(cfg, s, c) == q
  }

  ghost predicate Inv(cfg: Config, s: State) {
    && |s.tops| >= 1 && |s.queues| == |s.tops| && |s.frames| >= 1
    && s.frames[0].thread == 0 && s.frames[0].target == Root
    && (forall f :: 0 <= f < |s.frames| ==> FrameOk(s, f))
    && (forall t :: 0 <= t < |s.tops| ==> TopOk(s, t))
    && (forall c :: 0 <= c < |s.chunks| ==> ChunkOk(cfg, s, c))
    && (forall q :: 0 <= q < |s.queues| ==> QueueOk(cfg, s, q))
  }

  function Init(input: seq<int>, workers: nat): (s: State) {
    State(
      [Frame(0, input, None, Root, Entry)], [], seq(workers + 1, (i: nat) => []),
      seq(workers + 1, (i: nat) => if i == 0 then Some(0) else None))
  }

  lemma InitInv(cfg: Config, input: seq<int>, workers: nat)
    ensures Inv(cfg, Init(input, workers))
  {
  }

  lemma SetPcKeepsInv(cfg: Config, s: State, f: nat, pc: Pc)
    requires Inv(cfg, s) && Live(s, f) && !Suspended(s.frames[f].pc)
    requires !pc.Gone? && !Suspended(pc)
    requires DataOk(SetPc(s, f, pc), f)
    requires forall c :: 0 <= c < |s.chunks| && s.chunks[c].promise == None && HoldsChunk(s.frames[f].pc, c) ==>
      HoldsChunk(pc, c)
    ensures Inv(cfg, SetPc(s, f, pc))
  {
    hide IsSplit, SortedPermutation;
    var s' := SetPc(s, f, pc);
    forall g | 0 <= g < |s'.frames| ensures FrameOk(s', g) {
      assert FrameOk(s, g);
    }
    forall c | 0 <= c < |s'.chunks| ensures ChunkOk(cfg, s', c) {
      assert ChunkOk(cfg, s, c);
    }
    forall t | 0 <= t < |s'.tops| ensures TopOk(s', t) {
      assert TopOk(s, t);
    }
    forall q | 0 <= q < |s'.queues| ensures QueueOk(cfg, s', q) {
      assert QueueOk(cfg, s, q);
    }
  }

  lemma PushChunkKeepsFrames(cfg: Config, s: State, t: nat, f: nat)
    requires Inv(cfg, s) && OnTop(s, t, f) && s.frames[f].pc.Split? && PushQueue(cfg.pool, t) < |s.queues|
    ensures forall g :: 0 <= g < |s.frames| ==> FrameOk(PushChunk(cfg, s, t, f), g)
  {
    hide IsSplit, SortedPermutation;
    var s' := PushChunk(cfg, s, t, f);
    assert FrameOk(s, f);
    forall g | 0 <= g < |s.frames| ensures FrameOk(s', g) {
      assert FrameOk(s, g);
    }
  }

  lemma PushChunkKeepsChunks(cfg: Config, s: State, t: nat, f: nat)
    requires Inv(cfg, s) && OnTop(s, t, f) && s.frames[f].pc.Split? && PushQueue(cfg.pool, t) < |s.queues|
    ensures forall c :: 0 <= c <= |s.chunks| ==> ChunkOk(cfg, PushChunk(cfg, s, t, f), c)
  {
    var s' := PushChunk(cfg, s, t, f);
    assert TopOk(s, t);
    var q := PushQueue(cfg.pool, t);
    assert s'.queues[q][|s.queues[q]|] == |s.chunks|;
    forall c | 0 <= c < |s.chunks| ensures ChunkOk(cfg, s', c) {
      assert ChunkOk(cfg, s, c);
    }
  }

  lemma PushChunkKeepsQueues(cfg: Config, s: State, t: nat, f: nat)
    requires Inv(cfg, s) && OnTop(s, t, f) && s.frames[f].pc.Split? && PushQueue(cfg.pool, t) < |s.queues|
    ensures forall q :: 0 <= q < |s.queues| ==> QueueOk(cfg, PushChunk(cfg, s, t, f), q)
  {
    var s' := PushChunk(cfg, s, t, f);
    assert TopOk(s, t);
    forall q | 0 <= q < |s.queues| ensures QueueOk(cfg, s', q) {
      assert QueueOk(cfg, s, q);
      forall i | 0 <= i < |s'.queues[q]| ensures Queued(cfg, s', q, s'.queues[q][i]) {
        if i < |s.queues[q]| {
          assert Queued(cfg, s, q, s.queues[q][i]);
        }
      }
      assert forall i :: 0 <= i < |s.queues[q]| ==> Queued(cfg, s, q, s.queues[q][i]);
    }
  }

  lemma PushChunkKeepsInv(cfg: Config, s: State, t: nat, f: nat)
    requires Inv(cfg, s) && OnTop(s, t, f) && s.frames[f].pc.Split?
    ensures PushQueue(cfg.pool, t) < |s.queues| && Inv(cfg, PushChunk(cfg, s, t, f))
  {
    assert TopOk(s, t);
    PushChunkKeepsFrames(cfg, s, t, f);
    PushChunkKeepsChunks(cfg, s, t, f);
    PushChunkKeepsQueues(cfg, s, t, f);
    var s' := PushChunk(cfg, s, t, f);
    forall u | 0 <= u < |s'.tops| ensures TopOk(s', u) {
      assert TopOk(s, u);
    }
  }

  lemma CallHigherKeepsFrame(cfg: Config, s: State, t: nat, f: nat, g: nat)
    requires OnTop(s, t, f) && s.frames[f].pc.Pushed? && TopOk(s, t) && FrameOk(s, f)
    requires g < |s.frames| && FrameOk(s, g)
    ensures FrameOk(CallHigher(cfg, s, t, f), g)
  {
    hide IsSplit, SortedPermutation;
  }

  lemma CallHigherStartsFrame(cfg: Config, s: State, t: nat, f: nat)
    requires OnTop(s, t, f) && s.frames[f].pc.Pushed? && TopOk(s, t)
    ensures FrameOk(CallHigher(cfg, s, t, f), |s.frames|)
  {
    hide IsSplit, SortedPermutation;
  }

  lemma CallHigherKeepsFrames(cfg: Config, s: State, t: nat, f: nat)
    requires Inv(cfg, s) && OnTop(s, t, f) && s.frames[f].pc.Pushed?
    ensures forall g :: 0 <= g <= |s.frames| ==> FrameOk(CallHigher(cfg, s, t, f), g)
  {
    hide FrameOk, ChunkOk, QueueOk;
    assert TopOk(s, t) && FrameOk(s, f);
    CallHigherStartsFrame(cfg, s, t, f);
    forall g | 0 <= g < |s.frames| ensures FrameOk(CallHigher(cfg, s, t, f), g) {
      CallHigherKeepsFrame(cfg, s, t, f, g);
    }
  }

  lemma CallHigherKeepsRest(cfg: Config, s: State, t: nat, f: nat)
    requires Inv(cfg, s) && OnTop(s, t, f) && s.frames[f].pc.Pushed?
    ensures var s' := CallHigher(cfg, s, t, f);
      && (forall c :: 0 <= c < |s'.chunks| ==> ChunkOk(cfg, s', c))
      && (forall u :: 0 <= u < |s'.tops| ==> TopOk(s', u))
  {
    var s' := CallHigher(cfg, s, t, f);
    assert TopOk(s, t);
    forall c | 0 <= c < |s'.chunks| ensures ChunkOk(cfg, s', c) {
      assert ChunkOk(cfg, s, c);
    }
    forall u | 0 <= u < |s'.tops| ensures TopOk(s', u) {
      if u < |s.tops| {
        assert TopOk(s, u);
      }
    }
  }

  lemma CallHigherKeepsInv(cfg: Config, s: State, t: nat, f: nat)
    requires Inv(cfg, s) && OnTop(s, t, f) && s.frames[f].pc.Pushed?
    ensures Inv(cfg, CallHigher(cfg, s, t, f))
  {
    CallHigherKeepsFrames(cfg, s, t, f);
    CallHigherKeepsRest(cfg, s, t, f);
    var s' := CallHigher(cfg, s, t, f);
    forall q | 0 <= q < |s'.queues| ensures QueueOk(cfg, s', q) {
      if q < |s.queues| {
        assert QueueOk(cfg, s, q);
        assert forall c :: Queued(cfg, s, q, c) ==> Queued(cfg, s', q, c);
      }
    }
  }

  lemma JoinSorted(low: seq<int>, p: int, high: seq<int>, input: seq<int>, lower: seq<int>, higher: seq<int>)
    requires IsSplit(input, lower, higher) && p == input[0]
    requires SortedPermutation(low, lower) && SortedPermutation(high, higher)
    ensures SortedPermutation(low + [p] + high, input)
  {
    var out := low + [p] + high;
    assert input == [p] + input[1..];
    assert multiset(out) == multiset(low) + multiset{p} + multiset(high);
    forall x | x in low ensures x < p {
      assert x in multiset(low);
      assert x in lower;
    }
    forall x | x in high ensures p <= x {
      assert x in multiset(high);
      assert x in higher;
    }
    forall i, j | 0 <= i < j < |out| ensures out[i] <= out[j] {
      if i < |low| {
        assert out[i] in low;
      }
      if j > |low| {
        assert out[j] == high[j - |low| - 1];
        assert out[j] in high;
        if i > |low| {
          assert out[i] == high[i - |low| - 1];
        }
      }
    }
  }

  /** What a waiting frame knows of its two parts. */
  lemma WaitingHasParts(cfg: Config, s: State, f: nat)
    requires Inv(cfg, s) && Live(s, f) && s.frames[f].pc.Waiting?
    ensures var fr := s.frames[f];
      && fr.pc.chunk < |s.chunks| && fr.input != [] && DataOk(s, f)
      && IsSplit(fr.input, s.chunks[fr.pc.chunk].data, fr.pc.higher)
      && SortedPermutation(fr.pc.sorted, fr.pc.higher)
      && (s.chunks[fr.pc.chunk].promise.Some? ==>
            SortedPermutation(s.chunks[fr.pc.chunk].promise.value, s.chunks[fr.pc.chunk].data))
  {
    hide SortedPermutation, QueueOk;
    assert FrameOk(s, f);
    assert ChunkOk(cfg, s, s.frames[f].pc.chunk);
  }

  lemma CheckFutureKeepsInv(cfg: Config, s: State, f: nat)
    requires Inv(cfg, s) && Live(s, f) && s.frames[f].pc.Waiting?
    ensures s.frames[f].pc.chunk < |s.chunks| && s.frames[f].input != [] && Inv(cfg, CheckFuture(s, f))
  {
    hide Inv, IsSplit, SortedPermutation;
    var fr := s.frames[f];
    var c := fr.pc.chunk;
    WaitingHasParts(cfg, s, f);
    if s.chunks[c].promise.Some? {
      JoinSorted(s.chunks[c].promise.value, fr.input[0], fr.pc.sorted, fr.input, s.chunks[c].data, fr.pc.higher);
      SetPcKeepsInv(cfg, s, f, Finished(s.chunks[c].promise.value + [fr.input[0]] + fr.pc.sorted));
    } else {
      SetPcKeepsInv(cfg, s, f, Polling(c, fr.pc.higher, fr.pc.sorted));
    }
  }

  lemma TakenIsQueued(cfg: Config, s: State, t: nat, k: nat)
    requires Inv(cfg, s) && CanClaim(cfg, s, t, k)
    ensures Queued(cfg, s, ScanOrder(cfg.pool, |s.tops|, t)[k].0, Taken(cfg, s, t, k))
  {
    var e := ScanOrder(cfg.pool, |s.tops|, t)[k];
    var q := s.queues[e.0];
    assert QueueOk(cfg, s, e.0);
    assert Queued(cfg, s, e.0, q[0]) && Queued(cfg, s, e.0, q[|q| - 1]);
  }

  predicate CanClaimFrom(cfg: Config, s: State, t: nat, k: nat) {
    && t < |s.tops| && CanClaim(cfg, s, t, k) && Taken(cfg, s, t, k) < |s.chunks|
    && (s.tops[t].Some? ==> OnTop(s, t, s.tops[t].value) && s.frames[s.tops[t].value].pc.Polling?)
  }

  lemma ClaimChunkKeepsFrame(cfg: Config, s: State, t: nat, k: nat, g: nat)
    requires CanClaimFrom(cfg, s, t, k) && s.chunks[Taken(cfg, s, t, k)].claimer == None
    requires g < |s.frames| && FrameOk(s, g) && TopOk(s, t)
    ensures FrameOk(ClaimChunk(cfg, s, t, k), g)
  {
    hide IsSplit, SortedPermutation, ScanOrder, QueuesAfterTake, Taken;
  }

  lemma ClaimChunkKeepsChunk(cfg: Config, s: State, t: nat, k: nat, d: nat)
    requires CanClaimFrom(cfg, s, t, k) && Queued(cfg, s, ScanOrder(cfg.pool, |s.tops|, t)[k].0, Taken(cfg, s, t, k))
    requires d < |s.chunks| && ChunkOk(cfg, s, d) && TopOk(s, t)
    ensures ChunkOk(cfg, ClaimChunk(cfg, s, t, k), d)
  {
    hide IsSplit, SortedPermutation;
    var e := ScanOrder(cfg.pool, |s.tops|, t)[k].0;
    var c := Taken(cfg, s, t, k);
    var q, q' := s.queues[e], QueuesAfterTake(cfg, s, t, k)[e];
    if d != c && s.chunks[d].claimer == None && Home(cfg, s, d) == e {
      var i :| 0 <= i < |q| && q[i] == d;
      if q' == q[1..] && c == q[0] {
        assert q'[i - 1] == d;
      } else {
        assert q'[i] == d;
      }
    }
  }

  lemma ClaimChunkKeepsQueue(cfg: Config, s: State, t: nat, k: nat, q: nat)
    requires CanClaimFrom(cfg, s, t, k) && Queued(cfg, s, ScanOrder(cfg.pool, |s.tops|, t)[k].0, Taken(cfg, s, t, k))
    requires q < |s.queues| && QueueOk(cfg, s, q) && TopOk(s, t)
    requires forall c :: 0 <= c < |s.chunks| ==> s.chunks[c].creator < |s.frames|
    ensures QueueOk(cfg, ClaimChunk(cfg, s, t, k), q)
  {
    var s' := ClaimChunk(cfg, s, t, k);
    forall d | d != Taken(cfg, s, t, k) && Queued(cfg, s, q, d) ensures Queued(cfg, s', q, d) {
    }
    QueueKept(cfg, s, s', q, ScanOrder(cfg.pool, |s.tops|, t)[k].0, Taken(cfg, s, t, k));
  }

  lemma ClaimChunkKeepsInv(cfg: Config, s: State, t: nat, k: nat)
    requires Inv(cfg, s) && t < |s.tops| && CanClaim(cfg, s, t, k)
    requires s.tops[t].Some? ==> OnTop(s, t, s.tops[t].value) && s.frames[s.tops[t].value].pc.Polling?
    ensures CanClaimFrom(cfg, s, t, k) && Inv(cfg, ClaimChunk(cfg, s, t, k))
  {
    TakenIsQueued(cfg, s, t, k);
    var s' := ClaimChunk(cfg, s, t, k);
    assert TopOk(s, t) && ChunkOk(cfg, s, Taken(cfg, s, t, k));
    forall g | 0 <= g < |s.frames| ensures FrameOk(s', g) {
      ClaimChunkKeepsFrame(cfg, s, t, k, g);
    }
    ClaimedFrameOk(cfg, s, t, k);
    forall d | 0 <= d < |s'.chunks| ensures ChunkOk(cfg, s', d) {
      ClaimChunkKeepsChunk(cfg, s, t, k, d);
    }
    forall u | 0 <= u < |s'.tops| ensures TopOk(s', u) {
      assert TopOk(s, u);
    }
    forall q | 0 <= q < |s'.queues| ensures QueueOk(cfg, s', q) {
      forall c | 0 <= c < |s.chunks| ensures s.chunks[c].creator < |s.frames| {
        assert ChunkOk(cfg, s, c);
      }
      ClaimChunkKeepsQueue(cfg, s, t, k, q);
    }
  }

  lemma ClaimedFrameOk(cfg: Config, s: State, t: nat, k: nat)
    requires CanClaimFrom(cfg, s, t, k) && TopOk(s, t) && ChunkOk(cfg, s, Taken(cfg, s, t, k))
    requires s.chunks[Taken(cfg, s, t, k)].claimer == None && |s.frames| > 0
    ensures FrameOk(ClaimChunk(cfg, s, t, k), |s.frames|)
  {
  }

  lemma QueueKept(cfg: Config, s: State, s': State, q: nat, e: nat, c: nat)
    requires q < |s.queues| && e < |s.queues| && QueueOk(cfg, s, q) && |s'.queues| == |s.queues|
    requires s.queues[e] != []
    requires if q != e then s'.queues[q] == s.queues[q]
             else || (s'.queues[q] == s.queues[q][1..] && c == s.queues[q][0])
                  || (s'.queues[q] == s.queues[q][..|s.queues[q]| - 1] && c == s.queues[q][|s.queues[q]| - 1])
    requires forall d :: d != c && Queued(cfg, s, q, d) ==> Queued(cfg, s', q, d)
    requires q != e ==> !Queued(cfg, s, q, c)
    ensures QueueOk(cfg, s', q)
  {
    var was := s.queues[q];
    forall i | 0 <= i < |s'.queues[q]| ensures Queued(cfg, s', q, s'.queues[q][i]) {
      if q != e {
        assert Queued(cfg, s, q, was[i]);
      } else if s'.queues[q] == was[1..] && c == was[0] {
        assert Queued(cfg, s, q, was[i + 1]);
      } else {
        assert Queued(cfg, s, q, was[i]);
      }
    }
  }

  predicate CanReturn(s: State, t: nat, f: nat) {
    && OnTop(s, t, f) && s.frames[f].pc.Finished?
    && (s.frames[f].target.ChunkOf? ==> s.frames[f].target.id < |s.chunks|)
    && (s.frames[f].below.Some? ==> s.frames[f].below.value < |s.frames|)
  }

  lemma ReturnResumesBelow(s: State, t: nat, f: nat, b: nat)
    requires CanReturn(s, t, f) && s.frames[f].below == Some(b)
    requires FrameOk(s, f) && FrameOk(s, b) && TopOk(s, t)
    ensures FrameOk(Return(s, t, f), b)
  {
    hide IsSplit, SortedPermutation;
    var s' := Return(s, t, f);
    assert s'.frames[b] == s.frames[b].(pc := Resumed(s.frames[b].pc, s.frames[f].pc.out));
    assert DataOk(s', b);
    assert TargetLink(s', b);
  }

  lemma ReturnKeepsOther(s: State, t: nat, f: nat, g: nat)
    requires CanReturn(s, t, f) && g < |s.frames| && g != f && s.frames[f].below != Some(g)
    requires FrameOk(s, f) && FrameOk(s, g) && TopOk(s, t)
    ensures FrameOk(Return(s, t, f), g)
  {
    hide IsSplit, SortedPermutation;
    var s' := Return(s, t, f);
    assert s'.frames[g] == s.frames[g];
    assert DataOk(s', g);
    if Live(s, g) {
      assert CallLink(s', g);
      assert BelowLink(s', g);
      assert TargetLink(s', g);
    }
  }

  lemma ReturnKeepsFrames(cfg: Config, s: State, t: nat, f: nat)
    requires Inv(cfg, s) && CanReturn(s, t, f)
    ensures forall g :: 0 <= g < |s.frames| ==> FrameOk(Return(s, t, f), g)
  {
    assert TopOk(s, t) && FrameOk(s, f);
    forall g | 0 <= g < |s.frames| ensures FrameOk(Return(s, t, f), g) {
      assert FrameOk(s, g);
      if s.frames[f].below == Some(g) {
        ReturnResumesBelow(s, t, f, g);
      } else if g != f {
        ReturnKeepsOther(s, t, f, g);
      }
    }
  }

  lemma ReturnKeepsChunks(cfg: Config, s: State, t: nat, f: nat)
    requires Inv(cfg, s) && CanReturn(s, t, f)
    ensures forall c :: 0 <= c < |s.chunks| ==> ChunkOk(cfg, Return(s, t, f), c)
  {
    hide IsSplit, SortedPermutation;
    var s' := Return(s, t, f);
    assert TopOk(s, t) && FrameOk(s, f);
    if s.frames[f].below.Some? {
      assert FrameOk(s, s.frames[f].below.value);
    }
    forall c | 0 <= c < |s.chunks| ensures ChunkOk(cfg, s', c) {
      assert ChunkOk(cfg, s, c);
    }
  }

  lemma ReturnIsPossible(cfg: Config, s: State, t: nat, f: nat)
    requires Inv(cfg, s) && OnTop(s, t, f) && s.frames[f].pc.Finished?
    ensures CanReturn(s, t, f) && FrameOk(s, f) && s.frames[f].thread == t
    ensures s.frames[f].below.Some? ==> var b := s.frames[f].below.value;
      b < f && Live(s, b) && Suspended(s.frames[b].pc) && s.frames[b].thread == t
    ensures s.frames[f].target.ChunkOf? ==>
      s.chunks[s.frames[f].target.id].claimer == Some(f) && s.chunks[s.frames[f].target.id].promise == None
  {
    hide DataOk, ChunkOk, QueueOk;
    assert TopOk(s, t) && FrameOk(s, f);
    if s.frames[f].below.Some? {
      assert FrameOk(s, s.frames[f].below.value);
    }
  }

  lemma ReturnKeepsTops(cfg: Config, s: State, t: nat, f: nat)
    requires Inv(cfg, s) && OnTop(s, t, f) && s.frames[f].pc.Finished? && CanReturn(s, t, f)
    ensures forall u :: 0 <= u < |s.tops| ==> TopOk(Return(s, t, f), u)
  {
    hide FrameOk, ChunkOk, QueueOk;
    ReturnIsPossible(cfg, s, t, f);
    forall u | 0 <= u < |s.tops| ensures TopOk(Return(s, t, f), u) {
      assert TopOk(s, u);
    }
  }

  lemma ReturnKeepsQueues(cfg: Config, s: State, t: nat, f: nat)
    requires Inv(cfg, s) && CanReturn(s, t, f)
    ensures forall q :: 0 <= q < |s.queues| ==> QueueOk(cfg, Return(s, t, f), q)
  {
    hide FrameOk, ChunkOk, TopOk;
    var s' := Return(s, t, f);
    forall q | 0 <= q < |s'.queues| ensures QueueOk(cfg, s', q) {
      assert QueueOk(cfg, s, q);
      assert forall c :: Queued(cfg, s, q, c) ==> Queued(cfg, s', q, c);
    }
  }

  lemma ReturnKeepsInv(cfg: Config, s: State, t: nat, f: nat)
    requires Inv(cfg, s) && OnTop(s, t, f) && s.frames[f].pc.Finished?
    ensures CanReturn(s, t, f) && Inv(cfg, Return(s, t, f))
  {
    hide FrameOk, ChunkOk, TopOk, QueueOk;
    ReturnIsPossible(cfg, s, t, f);
    ReturnKeepsFrames(cfg, s, t, f);
    ReturnKeepsChunks(cfg, s, t, f);
    ReturnKeepsTops(cfg, s, t, f);
    ReturnKeepsQueues(cfg, s, t, f);
  }

  lemma NextKeepsInv(cfg: Config, s: State, t: nat, a: Action)
    requires Inv(cfg, s) && Enabled(cfg, s, t, a)
    ensures a.Claim? ==> Taken(cfg, s, t, a.k) < |s.chunks|
    ensures Inv(cfg, Next(cfg, s, t, a))
  {
    assert TopOk(s, t);
    if a.Claim? {
      ClaimChunkKeepsInv(cfg, s, t, a.k);
    } else if s.tops[t].Some? {
      var f := s.tops[t].value;
      assert FrameOk(s, f);
      match s.frames[f].pc
      case Entry =>
        if a.Partition? {
          SetPcKeepsInv(cfg, s, f, Split(a.lower, a.higher));
        } else {
          SetPcKeepsInv(cfg, s, f, Finished([]));
        }
      case Split(_, _) => PushChunkKeepsInv(cfg, s, t, f);
      case Pushed(_, _) => CallHigherKeepsInv(cfg, s, t, f);
      case Waiting(_, _, _) => CheckFutureKeepsInv(cfg, s, f);
      case Polling(c, h, sorted) => SetPcKeepsInv(cfg, s, f, Waiting(c, h, sorted));
      case Finished(_) => ReturnKeepsInv(cfg, s, t, f);
      case _ =>
    }
  }

  // ---------- deadlock freedom ----------

  function Filter(s: seq<int>, p: int, below: bool): (r: seq<int>)
    ensures forall x :: x in r ==> x in s && (x < p) == below
  {
    if s == [] then []
    else if (s[0] < p) == below then [s[0]] + Filter(s[1..], p, below)
    else Filter(s[1..], p, below)
  }

  lemma {:induction false} FilterSplits(s: seq<int>, p: int)
    ensures multiset(Filter(s, p, true)) + multiset(Filter(s, p, false)) == multiset(s)
  {
    if s != [] {
      FilterSplits(s[1..], p);
      assert s == [s[0]] + s[1..];
    }
  }

  lemma NewestLive(s: State, f: nat) returns (m: nat)
    requires Live(s, f)
    ensures f <= m && Live(s, m) && forall g :: m < g && Live(s, g) ==> false
  {
    m := |s.frames| - 1;
    while s.frames[m].pc.Gone?
      invariant f <= m < |s.frames|
      invariant forall g :: m < g ==> !Live(s, g)
      decreases m
    {
      m := m - 1;
    }
  }

  /** The first queue of the scan of `t` that is not empty, or the length of the scan. */
  lemma FirstClaim(cfg: Config, s: State, t: nat) returns (k: nat)
    ensures k <= |ScanOrder(cfg.pool, |s.tops|, t)|
    ensures k < |ScanOrder(cfg.pool, |s.tops|, t)| ==> CanClaim(cfg, s, t, k)
    ensures forall j :: 0 <= j < k ==> !CanClaim(cfg, s, t, j)
  {
    k := 0;
    while k < |ScanOrder(cfg.pool, |s.tops|, t)| && !CanClaim(cfg, s, t, k)
      invariant k <= |ScanOrder(cfg.pool, |s.tops|, t)|
      invariant forall j :: 0 <= j < k ==> !CanClaim(cfg, s, t, j)
    {
      k := k + 1;
    }
  }

  /** A wait for a promise nobody has set is a wait for a chunk nobody has claimed, if the waiting
      frame is the newest: the frame that claimed the chunk would have started later. */
  lemma NewestWaitsForQueuedChunk(cfg: Config, s: State, m: nat)
    requires Inv(cfg, s) && Live(s, m) && forall g :: m < g ==> !Live(s, g)
    requires s.frames[m].pc.Waiting? || s.frames[m].pc.Polling?
    ensures var c := s.frames[m].pc.chunk;
      && c < |s.chunks| && s.chunks[c].creator == m
      && (s.chunks[c].promise == None ==>
            Home(cfg, s, c) < |s.queues| && c in s.queues[Home(cfg, s, c)])
  {
    assert FrameOk(s, m);
    assert ChunkOk(cfg, s, s.frames[m].pc.chunk);
  }

  /** The actions `acts` are what thread `t` does when it runs alone; the last one is productive and
      a claim takes from the first queue of the scan that is not empty. */
  ghost predicate RunsToProgress(cfg: Config, s: State, t: nat, acts: seq<Action>)
    decreases |acts|
  {
    && acts != [] && Enabled(cfg, s, t, acts[0])
    && (acts[0].Claim? ==>
          Taken(cfg, s, t, acts[0].k) < |s.chunks| && forall j :: 0 <= j < acts[0].k ==> !CanClaim(cfg, s, t, j))
    && if |acts| == 1 then Productive(s, t, acts[0])
       else RunsToProgress(cfg, Next(cfg, s, t, acts[0]), t, acts[1..])
  }

  lemma PollingClaims(cfg: Config, s: State, m: nat) returns (acts: seq<Action>)
    requires Inv(cfg, s) && Live(s, m) && forall g :: m < g ==> !Live(s, g)
    requires s.frames[m].pc.Polling? && s.frames[m].pc.chunk < |s.chunks|
    requires s.chunks[s.frames[m].pc.chunk].promise == None
    ensures |acts| == 1 && RunsToProgress(cfg, s, s.frames[m].thread, acts)
  {
    var t := s.frames[m].thread;
    NewestWaitsForQueuedChunk(cfg, s, m);
    assert FrameOk(s, m);
    var k := FirstClaim(cfg, s, t);
    assert ScanOrder(cfg.pool, |s.tops|, t)[0].0 == PushQueue(cfg.pool, t);
    assert CanClaim(cfg, s, t, 0);
    TakenIsQueued(cfg, s, t, k);
    acts := [Claim(k)];
  }

  lemma {:induction false} WaitingClaims(cfg: Config, s: State, m: nat) returns (acts: seq<Action>)
    requires Inv(cfg, s) && Live(s, m) && forall g :: m < g ==> !Live(s, g)
    requires s.frames[m].pc.Waiting? && s.frames[m].pc.chunk < |s.chunks|
    requires s.chunks[s.frames[m].pc.chunk].promise == None
    ensures |acts| == 2 && RunsToProgress(cfg, s, s.frames[m].thread, acts)
  {
    hide DataOk, ChunkOk, QueueOk;
    var t := s.frames[m].thread;
    WaitingHasParts(cfg, s, m);
    assert FrameOk(s, m);
    NextKeepsInv(cfg, s, t, Go);
    var s' := Next(cfg, s, t, Go);
    forall g | m < g ensures !Live(s', g) {
      assert !Live(s, g);
    }
    var rest := PollingClaims(cfg, s', m);
    acts := [Go] + rest;
    assert acts[1..] == rest;
  }

  /** As long as one call of `do_sort` is not over, the thread of the newest one gets on: nobody
      waits for ever, whatever the number of workers. */
  lemma NoDeadlock(cfg: Config, s: State, f: nat) returns (t: nat, acts: seq<Action>)
    requires Inv(cfg, s) && Live(s, f)
    ensures |acts| <= 2 && RunsToProgress(cfg, s, t, acts)
  {
    var m := NewestLive(s, f);
    t := s.frames[m].thread;
    assert FrameOk(s, m);
    match s.frames[m].pc
    case Entry =>
      var input := s.frames[m].input;
      if input == [] {
        acts := [Go];
      } else {
        FilterSplits(input[1..], input[0]);
        acts := [Partition(Filter(input[1..], input[0], true), Filter(input[1..], input[0], false))];
      }
    case Waiting(c, h, sorted) =>
      NewestWaitsForQueuedChunk(cfg, s, m);
      if s.chunks[c].promise.Some? {
        acts := [Go];
      } else {
        acts := WaitingClaims(cfg, s, m);
      }
    case Polling(c, h, sorted) =>
      NewestWaitsForQueuedChunk(cfg, s, m);
      if s.chunks[c].promise.Some? {
        var k := FirstClaim(cfg, s, t);
        if CanClaim(cfg, s, t, k) {
          TakenIsQueued(cfg, s, t, k);
          acts := [Claim(k)];
        } else {
          acts := [Miss, Go];
          assert RunsToProgress(cfg, Next(cfg, s, t, Miss), t, acts[1..]);
        }
      } else {
        acts := PollingClaims(cfg, s, m);
      }
    case _ => acts := [Go];
  }

  // ---------- result ----------

  /** Every running call but the first was started by, or waits on behalf of, an older one. */
  lemma NothingOutlivesRoot(cfg: Config, s: State, f: nat)
    requires Inv(cfg, s) && s.frames[0].pc.Gone?
    ensures !Live(s, f)
    decreases f
  {
    if Live(s, f) {
      assert FrameOk(s, f);
      match s.frames[f].below
      case Some(b) => NothingOutlivesRoot(cfg, s, b);
      case None =>
        var c := s.frames[f].target.id;
        assert ChunkOk(cfg, s, c);
        NothingOutlivesRoot(cfg, s, s.chunks[c].creator);
    }
  }

  // ---------- the simple form ----------

  /** A choice of what `std::partition` does with the rest of a list around its first element. */
  type Partitioner = seq<int> -> (seq<int>, seq<int>)

  ghost predicate Partitions(part: Partitioner) {
    forall s: seq<int> :: s != [] ==> IsSplit(s, part(s).0, part(s).1)
  }

  ghost function SequentialQuickSort(part: Partitioner, input: seq<int>): (out: seq<int>)
    requires Partitions(part)
    ensures SortedPermutation(out, input)
    decreases |input|
  {
    if input == [] then []
    else
      var (lower, higher) := part(input);
      assert IsSplit(input, lower, higher);
      assert |lower| + |higher| == |input| - 1 by { SplitSize(input, lower, higher); }
      var low, high := SequentialQuickSort(part, lower), SequentialQuickSort(part, higher);
      JoinSorted(low, input[0], high, input, lower, higher);
      low + [input[0]] + high
  }

  lemma SplitSize(input: seq<int>, lower: seq<int>, higher: seq<int>)
    requires IsSplit(input, lower, higher)
    ensures |lower| + |higher| == |input| - 1
  {
    assert |multiset(lower) + multiset(higher)| == |multiset(input[1..])|;
  }

  lemma SortedHead(a: seq<int>, x: int)
    requires Sorted(a) && x in multiset(a)
    ensures a != [] && a[0] <= x
  {
    assert x in a;
  }

  lemma SortedTail(a: seq<int>)
    requires Sorted(a) && a != []
    ensures Sorted(a[1..]) && a[0] in multiset(a)
    ensures multiset(a[1..]) == multiset(a) - multiset{a[0]}
  {
    assert a == [a[0]] + a[1..];
  }

  lemma EmptyPermutation(a: seq<int>, b: seq<int>)
    requires multiset(a) == multiset(b)
    ensures a == [] <==> b == []
  {
    assert |multiset(a)| == |multiset(b)|;
  }

  lemma {:induction false} SortedPermutationUnique(a: seq<int>, b: seq<int>)
    requires Sorted(a) && Sorted(b) && multiset(a) == multiset(b)
    ensures a == b
  {
    EmptyPermutation(a, b);
    if a != [] {
      SortedTail(a);
      SortedTail(b);
      assert a[0] == b[0] by {
        SortedHead(b, a[0]);
        SortedHead(a, b[0]);
      }
      SortedPermutationUnique(a[1..], b[1..]);
      assert a[1..] == b[1..];
      SameFromTail(a, b);
    }
  }

  lemma SameFromTail(a: seq<int>, b: seq<int>)
    requires a != [] && b != [] && a[0] == b[0] && a[1..] == b[1..]
    ensures a == b
  {
    assert a == [a[0]] + a[1..] && b == [b[0]] + b[1..];
  }

  // ---------- runs ----------

  /** One run of the sort: the states it goes through and who did what in between. */
  ghost predicate IsRun(cfg: Config, input: seq<int>, workers: nat, states: seq<State>, steps: seq<(nat, Action)>) {
    && |states| == |steps| + 1
    && states[0] == Init(input, workers)
    && forall i :: 0 <= i < |steps| ==> IsStep(cfg, states[i], steps[i], states[i + 1])
  }

  ghost predicate IsStep(cfg: Config, s: State, step: (nat, Action), s': State) {
    && Enabled(cfg, s, step.0, step.1)
    && (step.1.Claim? ==> Taken(cfg, s, step.0, step.1.k) < |s.chunks|)
    && s' == Next(cfg, s, step.0, step.1)
  }

  lemma {:induction false} RunKeepsInv(
    cfg: Config, input: seq<int>, workers: nat, states: seq<State>, steps: seq<(nat, Action)>, i: nat)
    requires IsRun(cfg, input, workers, states, steps) && i < |states|
    ensures Inv(cfg, states[i]) && states[i].frames[0].input == input
  {
    if i == 0 {
      InitInv(cfg, input, workers);
    } else {
      RunKeepsInv(cfg, input, workers, states, steps, i - 1);
      assert IsStep(cfg, states[i - 1], steps[i - 1], states[i]);
      NextKeepsInv(cfg, states[i - 1], steps[i - 1].0, steps[i - 1].1);
      InputsKept(cfg, states[i - 1], steps[i - 1].0, steps[i - 1].1);
    }
  }

  /** No call's input has changed and no promise that was set. */
  predicate InputsStay(s: State, s': State) {
    && |s.frames| <= |s'.frames| && |s.chunks| <= |s'.chunks|
    && (forall f :: 0 <= f < |s.frames| ==> s'.frames[f].input == s.frames[f].input)
    && (forall c :: 0 <= c < |s.chunks| && s.chunks[c].promise.Some? ==> s'.chunks[c].promise == s.chunks[c].promise)
  }

  lemma PushKeepsInputs(cfg: Config, s: State, t: nat, f: nat)
    requires f < |s.frames| && s.frames[f].pc.Split? && PushQueue(cfg.pool, t) < |s.queues|
    ensures InputsStay(s, PushChunk(cfg, s, t, f))
  {
  }

  lemma CallKeepsInputs(cfg: Config, s: State, t: nat, f: nat)
    requires f < |s.frames| && t < |s.tops| && s.frames[f].pc.Pushed?
    ensures InputsStay(s, CallHigher(cfg, s, t, f))
  {
  }

  lemma ClaimKeepsInputs(cfg: Config, s: State, t: nat, k: nat)
    requires CanClaimFrom(cfg, s, t, k)
    ensures InputsStay(s, ClaimChunk(cfg, s, t, k))
  {
    hide ScanOrder, QueuesAfterTake, Taken;
  }

  lemma ReturnKeepsInputs(s: State, t: nat, f: nat)
    requires CanReturn(s, t, f)
    requires s.frames[f].target.ChunkOf? ==> s.chunks[s.frames[f].target.id].promise == None
    ensures InputsStay(s, Return(s, t, f))
  {
    hide Resumed;
  }

  lemma SetPcKeepsInputs(s: State, f: nat, pc: Pc)
    requires f < |s.frames|
    ensures InputsStay(s, SetPc(s, f, pc))
  {
  }

  lemma NothingKeepsInputs(s: State)
    ensures InputsStay(s, s)
  {
  }

  /** A step changes no call's input and no promise that is set. */
  lemma InputsKept(cfg: Config, s: State, t: nat, a: Action)
    requires Inv(cfg, s) && Enabled(cfg, s, t, a)
    requires a.Claim? ==> Taken(cfg, s, t, a.k) < |s.chunks|
    ensures InputsStay(s, Next(cfg, s, t, a))
  {
    hide Inv, InputsStay, PushChunk, CallHigher, ClaimChunk, Return, IsSplit;
    NothingKeepsInputs(s);
    if a.Claim? {
      ClaimKeepsInputs(cfg, s, t, a.k);
    } else if s.tops[t].Some? {
      var f := s.tops[t].value;
      match s.frames[f].pc
      case Entry => SetPcKeepsInputs(s, f, if a.Partition? then Split(a.lower, a.higher) else Finished([]));
      case Split(_, _) => PushKeepsInputs(cfg, s, t, f);
      case Pushed(_, _) => CallKeepsInputs(cfg, s, t, f);
      case Waiting(_, _, _) => SetPcKeepsInputs(s, f, CheckFuture(s, f).frames[f].pc);
      case Polling(c, h, sorted) => SetPcKeepsInputs(s, f, Waiting(c, h, sorted));
      case Finished(_) =>
        ReturnIsPossible(cfg, s, t, f);
        ReturnKeepsInputs(s, t, f);
      case _ =>
    }
  }

  /** Whoever runs when: once the sort returns, its result is sorted, has the elements of the input
      and is what the sequential version returns. Every promise has been set, and nothing else runs. */
  lemma SortIsCorrect(
    cfg: Config, input: seq<int>, workers: nat, states: seq<State>, steps: seq<(nat, Action)>, part: Partitioner)
    requires IsRun(cfg, input, workers, states, steps)
    requires states[|steps|].frames != [] && states[|steps|].frames[0].pc.Gone?
    requires Partitions(part)
    ensures var s := states[|steps|];
      && SortedPermutation(s.frames[0].pc.out, input)
      && s.frames[0].pc.out == SequentialQuickSort(part, input)
      && (forall f :: !Live(s, f))
      && (forall c :: 0 <= c < |s.chunks| ==> s.chunks[c].promise.Some?)
  {
    var s := states[|steps|];
    RunKeepsInv(cfg, input, workers, states, steps, |steps|);
    assert FrameOk(s, 0);
    SortedPermutationUnique(s.frames[0].pc.out, SequentialQuickSort(part, input));
    forall f ensures !Live(s, f) {
      NothingOutlivesRoot(cfg, s, f);
    }
    forall c | 0 <= c < |s.chunks| ensures s.chunks[c].promise.Some? {
      assert ChunkOk(cfg, s, c);
    }
  }

  // ---------- termination ----------

  /** An upper bound on the productive steps of a call on `n` elements. */
  function Cost(n: nat): nat {
    16 * n + 8
  }

  function FrameWork(fr: Frame): nat {
    match fr.pc
    case Entry => Cost(|fr.input|)
    case Split(lower, higher) => Cost(|lower|) + Cost(|higher|) + 7
    case Pushed(_, higher) => Cost(|higher|) + 5
    case Calling(_, _, _) => 4
    case Waiting(_, _, _) => 3
    case Polling(_, _, _) => 3
    case Helping(_, _, _, _) => 3
    case Finished(_) => 1
    case Gone(_) => 0
  }

  function ChunkWork(ch: Chunk): nat {
    if ch.claimer == None then Cost(|ch.data|) + 1 else 0
  }

  function FramesWork(frames: seq<Frame>): nat {
    if frames == [] then 0 else FramesWork(frames[..|frames| - 1]) + FrameWork(frames[|frames| - 1])
  }

  function ChunksWork(chunks: seq<Chunk>): nat {
    if chunks == [] then 0 else ChunksWork(chunks[..|chunks| - 1]) + ChunkWork(chunks[|chunks| - 1])
  }

  function Work(s: State): nat {
    FramesWork(s.frames) + ChunksWork(s.chunks)
  }

  lemma {:induction false} FrameUpdateWork(frames: seq<Frame>, f: nat, fr: Frame)
    requires f < |frames|
    ensures FramesWork(frames[f := fr]) + FrameWork(frames[f]) == FramesWork(frames) + FrameWork(fr)
  {
    var n := |frames| - 1;
    if f == n {
      assert frames[f := fr][..n] == frames[..n];
    } else {
      FrameUpdateWork(frames[..n], f, fr);
      assert frames[f := fr][..n] == frames[..n][f := fr];
    }
  }

  lemma FrameAppendWork(frames: seq<Frame>, fr: Frame)
    ensures FramesWork(frames + [fr]) == FramesWork(frames) + FrameWork(fr)
  {
    assert (frames + [fr])[..|frames|] == frames;
  }

  lemma {:induction false} ChunkUpdateWork(chunks: seq<Chunk>, c: nat, ch: Chunk)
    requires c < |chunks|
    ensures ChunksWork(chunks[c := ch]) + ChunkWork(chunks[c]) == ChunksWork(chunks) + ChunkWork(ch)
  {
    var n := |chunks| - 1;
    if c == n {
      assert chunks[c := ch][..n] == chunks[..n];
    } else {
      ChunkUpdateWork(chunks[..n], c, ch);
      assert chunks[c := ch][..n] == chunks[..n][c := ch];
    }
  }

  lemma ChunkAppendWork(chunks: seq<Chunk>, ch: Chunk)
    ensures ChunksWork(chunks + [ch]) == ChunksWork(chunks) + ChunkWork(ch)
  {
    assert (chunks + [ch])[..|chunks|] == chunks;
  }

  lemma SetPcWork(s: State, f: nat, pc: Pc)
    requires f < |s.frames|
    ensures Work(SetPc(s, f, pc)) + FrameWork(s.frames[f]) == Work(s) + FrameWork(s.frames[f].(pc := pc))
  {
    FrameUpdateWork(s.frames, f, s.frames[f].(pc := pc));
  }

  lemma ClaimWork(cfg: Config, s: State, t: nat, k: nat)
    requires CanClaimFrom(cfg, s, t, k) && s.chunks[Taken(cfg, s, t, k)].claimer == None
    ensures Work(ClaimChunk(cfg, s, t, k)) == Work(s) - 1
  {
    var c := Taken(cfg, s, t, k);
    var s' := ClaimChunk(cfg, s, t, k);
    ChunkUpdateWork(s.chunks, c, s'.chunks[c]);
    FrameAppendWork(s'.frames[..|s.frames|], s'.frames[|s.frames|]);
    assert s'.frames == s'.frames[..|s.frames|] + [s'.frames[|s.frames|]];
    if s.tops[t].Some? {
      var f := s.tops[t].value;
      FrameUpdateWork(s.frames, f, s'.frames[f]);
      assert s'.frames[..|s.frames|] == s.frames[f := s'.frames[f]];
    } else {
      assert s'.frames[..|s.frames|] == s.frames;
    }
  }

  lemma ReturnWork(s: State, t: nat, f: nat)
    requires CanReturn(s, t, f)
    requires s.frames[f].target.ChunkOf? ==> s.chunks[s.frames[f].target.id].claimer.Some?
    requires s.frames[f].below.Some? ==>
      s.frames[f].below.value != f && Suspended(s.frames[s.frames[f].below.value].pc)
    ensures Work(Return(s, t, f)) < Work(s)
  {
    hide FramesWork, ChunksWork;
    var fr := s.frames[f];
    var s' := Return(s, t, f);
    var gone := s.frames[f := fr.(pc := Gone(fr.pc.out))];
    FrameUpdateWork(s.frames, f, gone[f]);
    if fr.below.Some? {
      FrameUpdateWork(gone, fr.below.value, s'.frames[fr.below.value]);
    }
    if fr.target.ChunkOf? {
      ChunkUpdateWork(s.chunks, fr.target.id, s'.chunks[fr.target.id]);
    }
  }

  lemma PushWork(cfg: Config, s: State, t: nat, f: nat)
    requires f < |s.frames| && s.frames[f].pc.Split? && PushQueue(cfg.pool, t) < |s.queues|
    ensures Work(PushChunk(cfg, s, t, f)) == Work(s) - 1
  {
    var s' := PushChunk(cfg, s, t, f);
    FrameUpdateWork(s.frames, f, s'.frames[f]);
    ChunkAppendWork(s.chunks, s'.chunks[|s.chunks|]);
  }

  lemma CallWork(cfg: Config, s: State, t: nat, f: nat)
    requires f < |s.frames| && t < |s.tops| && s.frames[f].pc.Pushed?
    ensures Work(CallHigher(cfg, s, t, f)) == Work(s) - 1
  {
    var s' := CallHigher(cfg, s, t, f);
    var called := s.frames[f := s'.frames[f]];
    FrameUpdateWork(s.frames, f, s'.frames[f]);
    FrameAppendWork(called, s'.frames[|s.frames|]);
    assert s'.frames == called + [s'.frames[|s.frames|]];
  }

  /** Productive steps use work up, the others leave it as it is. */
  lemma NextUsesWork(cfg: Config, s: State, t: nat, a: Action)
    requires Inv(cfg, s) && Enabled(cfg, s, t, a)
    requires a.Claim? ==> Taken(cfg, s, t, a.k) < |s.chunks|
    ensures Productive(s, t, a) ==> Work(Next(cfg, s, t, a)) < Work(s)
    ensures !Productive(s, t, a) ==> Work(Next(cfg, s, t, a)) == Work(s)
  {
    hide Inv, Work, PushChunk, CallHigher, ClaimChunk, Return, IsSplit;
    if a.Claim? {
      TakenIsQueued(cfg, s, t, a.k);
      ClaimWork(cfg, s, t, a.k);
    } else if s.tops[t].Some? {
      var f := s.tops[t].value;
      match s.frames[f].pc
      case Entry =>
        if a.Partition? {
          SplitSize(s.frames[f].input, a.lower, a.higher);
          SetPcWork(s, f, Split(a.lower, a.higher));
        } else {
          SetPcWork(s, f, Finished([]));
        }
      case Split(_, _) => PushWork(cfg, s, t, f);
      case Pushed(_, _) => CallWork(cfg, s, t, f);
      case Waiting(c, h, sorted) => SetPcWork(s, f, CheckFuture(s, f).frames[f].pc);
      case Polling(c, h, sorted) => SetPcWork(s, f, Waiting(c, h, sorted));
      case Finished(_) =>
        ReturnIsPossible(cfg, s, t, f);
        ReturnWork(s, t, f);
      case _ =>
    }
  }

  ghost function ProductiveSteps(states: seq<State>, steps: seq<(nat, Action)>): nat
    requires |states| == |steps| + 1
    requires forall i :: 0 <= i < |steps| ==> steps[i].0 < |states[i].tops|
  {
    if steps == [] then 0
    else
      var n := |steps| - 1;
      ProductiveSteps(states[..n + 1], steps[..n]) + (if Productive(states[n], steps[n].0, steps[n].1) then 1 else 0)
  }

  /** No run has more productive steps than a bound linear in the length of the input: together with
      the freedom from deadlock, the sort comes to an end. */
  lemma {:induction false} ProductiveStepsBounded(
    cfg: Config, input: seq<int>, workers: nat, states: seq<State>, steps: seq<(nat, Action)>)
    requires IsRun(cfg, input, workers, states, steps)
    ensures forall i :: 0 <= i < |steps| ==> steps[i].0 < |states[i].tops|
    ensures ProductiveSteps(states, steps) + Work(states[|steps|]) <= 16 * |input| + 8
  {
    forall i | 0 <= i < |steps| ensures steps[i].0 < |states[i].tops| {
      assert IsStep(cfg, states[i], steps[i], states[i + 1]);
    }
    if steps == [] {
      var first := Init(input, workers);
      assert FramesWork(first.frames[..0]) == 0;
      assert Work(first) == FrameWork(first.frames[0]);
    } else {
      var n := |steps| - 1;
      var states', steps' := states[..n + 1], steps[..n];
      forall i | 0 <= i < n ensures IsStep(cfg, states'[i], steps'[i], states'[i + 1]) {
        assert IsStep(cfg, states[i], steps[i], states[i + 1]);
      }
      ProductiveStepsBounded(cfg, input, workers, states', steps');
      RunKeepsInv(cfg, input, workers, states, steps, n);
      assert IsStep(cfg, states[n], steps[n], states[n + 1]);
      NextUsesWork(cfg, states[n], steps[n].0, steps[n].1);
    }
  }

  // ---------- in place ----------

  /** The sorter as the object the threads share. Each method is one step of one thread and changes
      the fields in place; `Step` is proved to do exactly what `Next` says. */
  class Sorter {
    const cfg: Config
    var frames: seq<Frame>
    var chunks: seq<Chunk>
    var queues: seq<seq<nat>>
    var tops: seq<Option<nat>>

    ghost function Current(): State
      reads this
    {
      State(frames, chunks, queues, tops)
    }

    constructor (cfg: Config, input: seq<int>, workers: nat)
      ensures this.cfg == cfg && Current() == Init(input, workers) && Inv(cfg, Current())
    {
      this.cfg := cfg;
      frames := [Frame(0, input, None, Root, Entry)];
      chunks := [];
      queues := seq(workers + 1, (i: nat) => []);
      tops := seq(workers + 1, (i: nat) => if i == 0 then Some(0) else None);
      new;
      InitInv(cfg, input, workers);
    }

    method SetPcOf(f: nat, pc: Pc)
      requires f < |frames|
      modifies `frames
      ensures Current() == SetPc(old(Current()), f, pc)
    {
      frames := frames[f := frames[f].(pc := pc)];
    }

    method Submit(t: nat, f: nat)
      requires f < |frames| && frames[f].pc.Split? && PushQueue(cfg.pool, t) < |queues|
      modifies `frames, `chunks, `queues
      ensures Current() == old(PushChunk(cfg, Current(), t, f))
    {
      var pc := frames[f].pc;
      var q := PushQueue(cfg.pool, t);
      queues := queues[q := queues[q] + [|chunks|]];
      SetPcOf(f, Pushed(|chunks|, pc.higher));
      chunks := chunks + [Chunk(pc.lower, f, None, None)];
    }

    method SortHigher(t: nat, f: nat)
      requires f < |frames| && t < |tops| && frames[f].pc.Pushed?
      modifies `frames, `queues, `tops
      ensures Current() == old(CallHigher(cfg, Current(), t, f))
    {
      var pc := frames[f].pc;
      var spawn := cfg.pool.ChunkStack? && |tops| - 1 < cfg.maxWorkers;
      tops := tops[t := Some(|frames|)];
      SetPcOf(f, Calling(pc.chunk, pc.higher, |frames|));
      frames := frames + [Frame(t, pc.higher, Some(f), Parent, Entry)];
      if spawn {
        tops := tops + [None];
        queues := queues + [[]];
      }
    }

    method TrySortChunk(t: nat, k: nat)
      requires t < |tops| && CanClaim(cfg, Current(), t, k)
      requires Taken(cfg, Current(), t, k) < |chunks|
      requires tops[t].Some? ==> tops[t].value < |frames| && frames[tops[t].value].pc.Polling?
      modifies this
      ensures Current() == old(ClaimChunk(cfg, Current(), t, k))
    {
      var (from, end) := ScanOrder(cfg.pool, |tops|, t)[k];
      var q := queues[from];
      var c := if end == Front then q[0] else q[|q| - 1];
      queues := queues[from := if end == Front then q[1..] else q[..|q| - 1]];
      var g := |frames|;
      var below := tops[t];
      if below.Some? {
        var pc := frames[below.value].pc;
        SetPcOf(below.value, Helping(pc.chunk, pc.higher, pc.sorted, g));
      }
      frames := frames + [Frame(t, chunks[c].data, below, ChunkOf(c), Entry)];
      chunks := chunks[c := chunks[c].(claimer := Some(g))];
      tops := tops[t := Some(g)];
    }

    method ReturnFrom(t: nat, f: nat)
      requires CanReturn(Current(), t, f)
      modifies this
      ensures Current() == old(Return(Current(), t, f))
    {
      var fr := frames[f];
      var out := fr.pc.out;
      SetPcOf(f, Gone(out));
      if fr.below.Some? {
        SetPcOf(fr.below.value, Resumed(frames[fr.below.value].pc, out));
      }
      if fr.target.ChunkOf? {
        chunks := chunks[fr.target.id := chunks[fr.target.id].(promise := Some(out))];
      }
      tops := tops[t := fr.below];
    }

    method Step(t: nat, a: Action)
      requires Inv(cfg, Current()) && Enabled(cfg, Current(), t, a)
      modifies this
      ensures old(a.Claim? ==> Taken(cfg, Current(), t, a.k) < |chunks|)
      ensures Current() == old(Next(cfg, Current(), t, a)) && Inv(cfg, Current())
    {
      NextKeepsInv(cfg, Current(), t, a);
      if a.Claim? {
        TrySortChunk(t, a.k);
      } else if tops[t].Some? {
        var f := tops[t].value;
        match frames[f].pc
        case Entry =>
          if a.Partition? {
            SetPcOf(f, Split(a.lower, a.higher));
          } else {
            SetPcOf(f, Finished([]));
          }
        case Split(_, _) => Submit(t, f);
        case Pushed(_, _) => SortHigher(t, f);
        case Waiting(c, h, sorted) =>
          if chunks[c].promise.Some? {
            var low := chunks[c].promise.value;
            SetPcOf(f, Finished(low + [frames[f].input[0]] + sorted));
          } else {
            SetPcOf(f, Polling(c, h, sorted));
          }
        case Polling(c, h, sorted) => SetPcOf(f, Waiting(c, h, sorted));
        case Finished(_) => ReturnFrom(t, f);
        case _ =>
      }
    }
  }
}
