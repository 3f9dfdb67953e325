/**
 * Which chunk a thread of the sort takes from which queue, and how many workers there are.
 */
module WorkQueues {
  import opened HelpingSort
  import opened Options

  // ---------- the order in the queues ----------

  predicate Increasing(q: seq<nat>) {
    forall i, j :: 0 <= i < j < |q| ==> q[i] < q[j]
  }

  /** Chunks are numbered in the order in which they are made, and every queue keeps that order. */
  predicate InOrder(queues: seq<seq<nat>>) {
    forall q :: 0 <= q < |queues| ==> Increasing(queues[q])
  }

  lemma {:induction false} PushKeepsOrder(cfg: Config, s: State, t: nat, f: nat)
    requires Inv(cfg, s) && InOrder(s.queues)
    requires f < |s.frames| && s.frames[f].pc.Split? && PushQueue(cfg.pool, t) < |s.queues|
    ensures InOrder(PushChunk(cfg, s, t, f).queues)
  {
    var q, s' := PushQueue(cfg.pool, t), PushChunk(cfg, s, t, f);
    assert QueueOk(cfg, s, q);
    forall i | 0 <= i < |s.queues[q]| ensures s.queues[q][i] < |s.chunks| {
      assert Queued(cfg, s, q, s.queues[q][i]);
    }
    assert Increasing(s.queues[q]);
    assert Increasing(s'.queues[q]);
  }

  lemma {:induction false} ClaimKeepsOrder(cfg: Config, s: State, t: nat, k: nat)
    requires InOrder(s.queues) && CanClaim(cfg, s, t, k)
    ensures InOrder(QueuesAfterTake(cfg, s, t, k))
  {
    hide ScanOrder;
    var e := ScanOrder(cfg.pool, |s.tops|, t)[k].0;
    assert Increasing(s.queues[e]);
  }

  lemma {:induction false} NextKeepsOrder(cfg: Config, s: State, t: nat, a: Action)
    requires Inv(cfg, s) && InOrder(s.queues) && Enabled(cfg, s, t, a)
    requires a.Claim? ==> Taken(cfg, s, t, a.k) < |s.chunks|
    ensures InOrder(Next(cfg, s, t, a).queues)
  {
    hide Inv, InOrder, IsSplit, PushChunk, QueuesAfterTake, Taken, ScanOrder, CanMiss;
    if a.Claim? {
      ClaimKeepsOrder(cfg, s, t, a.k);
    } else if s.tops[t].Some? {
      var f := s.tops[t].value;
      if s.frames[f].pc.Split? {
        PushKeepsOrder(cfg, s, t, f);
      } else if s.frames[f].pc.Pushed? {
        OneMoreQueue(s.queues);
      }
    }
  }

  lemma {:induction false} OneMoreQueue(queues: seq<seq<nat>>)
    requires InOrder(queues)
    ensures InOrder(queues + [[]])
  {
  }

  /** What a look for work takes: from the stack of chunks and, with work stealing, from the thread's own
      queue the newest chunk there, otherwise the oldest. Nothing else leaves a queue. */
  lemma {:induction false} ClaimTakes(cfg: Config, s: State, t: nat, k: nat)
    requires InOrder(s.queues) && CanClaim(cfg, s, t, k)
    ensures var q, c := ScanOrder(cfg.pool, |s.tops|, t)[k].0, Taken(cfg, s, t, k);
      && c in s.queues[q]
      && (forall d :: d in s.queues[q] ==>
            if cfg.pool.ChunkStack? || (cfg.pool.StealingQueues? && t != 0 && k == 0) then d <= c else c <= d)
      && (forall p, d :: 0 <= p < |s.queues| ==>
            (d in QueuesAfterTake(cfg, s, t, k)[p] <==> d in s.queues[p] && !(p == q && d == c)))
  {
    var e := ScanOrder(cfg.pool, |s.tops|, t)[k];
    var q := s.queues[e.0];
    assert Increasing(q);
    var rest := QueuesAfterTake(cfg, s, t, k)[e.0];
    if e.1 == Front {
      FirstOut(q);
    } else {
      LastOut(q);
    }
  }

  lemma {:induction false} FirstOut(q: seq<nat>)
    requires Increasing(q) && q != []
    ensures forall d :: d in q[1..] <==> d in q && d != q[0]
  {
    forall d | d in q && d != q[0] ensures d in q[1..] {
      var i :| 0 <= i < |q| && q[i] == d;
      assert q[1..][i - 1] == d;
    }
  }

  lemma {:induction false} LastOut(q: seq<nat>)
    requires Increasing(q) && q != []
    ensures forall d :: d in q[..|q| - 1] <==> d in q && d != q[|q| - 1]
  {
    forall d | d in q && d != q[|q| - 1] ensures d in q[..|q| - 1] {
      var i :| 0 <= i < |q| && q[i] == d;
      assert q[..|q| - 1][i] == d;
    }
  }

  // ---------- who can take what ----------

  /** The queues from which a thread may take: the shared one, its own one and, with work stealing, every
      other one. */
  predicate InReach(pool: Pool, t: nat, q: nat) {
    match pool
    case ChunkStack => q == 0
    case PoolQueue => q == 0
    case LocalQueues => q == 0 || q == t
    case StealingQueues => true
  }

  /** A thread may claim, on top of nothing if it is a worker or on top of a call that waits. */
  predicate LooksForWork(s: State, t: nat) {
    t < |s.tops| &&
    match s.tops[t]
    case None => t != 0
    case Some(f) => f < |s.frames| && s.frames[f].pc.Polling?
  }

  lemma {:induction false} AtLeast(n: nat, a: int, b: int)
    requires a < b
    ensures n * a + n <= n * b
  {
    Times(n, a + 1, b);
    assert n * (a + 1) == n * a + n;
  }

  lemma {:induction false} Times(a: nat, b: int, c: int)
    requires b <= c
    ensures a * b <= a * c
  {
  }

  lemma {:induction false} Multiple(m: int, n: nat, j: nat)
    requires j < n
    ensures (n * m + j) % n == j
  {
    var x := n * m + j;
    var q := x / n;
    assert x == n * q + x % n;
    if q < m {
      AtLeast(n, q, m);
    } else if m < q {
      AtLeast(n, m, q);
    }
  }

  /** Counting up from `w` comes to `j` modulo `n`. */
  lemma {:induction false} Reaches(w: nat, n: nat, j: nat) returns (i: nat)
    requires j < n
    ensures i < n && (w + i + 1) % n == j
  {
    var r := (w + 1) % n;
    i := if j >= r then j - r else j - r + n;
    var m := (w + 1) / n;
    assert w + 1 == n * m + r;
    if j >= r {
      Multiple(m, n, j);
    } else {
      assert n * (m + 1) == n * m + n;
      Multiple(m + 1, n, j);
    }
  }

  lemma {:induction false} OneQueueEach(cfg: Config, s: State)
    requires Inv(cfg, s)
    ensures |s.queues| == |s.tops| >= 1
  {
  }

  /** A thread that looks for work finds every queue within its reach, first the one on which it puts its
      own chunks, and takes from no other: with work stealing no chunk is out of any thread's reach. */
  lemma {:induction false} CanTakeIffInReach(cfg: Config, s: State, t: nat, q: nat) returns (k: nat)
    requires Inv(cfg, s) && LooksForWork(s, t) && q < |s.queues| && s.queues[q] != []
    ensures InReach(cfg.pool, t, q) <==>
      && k < |ScanOrder(cfg.pool, |s.tops|, t)| && ScanOrder(cfg.pool, |s.tops|, t)[k].0 == q
      && Enabled(cfg, s, t, Claim(k))
    ensures InReach(cfg.pool, t, q) && q == PushQueue(cfg.pool, t) ==> k == 0
    ensures !InReach(cfg.pool, t, q) ==>
      forall j :: 0 <= j < |ScanOrder(cfg.pool, |s.tops|, t)| ==> ScanOrder(cfg.pool, |s.tops|, t)[j].0 != q
  {
    hide Inv, IsSplit;
    OneQueueEach(cfg, s);
    var n, own := |s.tops| - 1, if t == 0 then 0 else 1;
    k := 0;
    if cfg.pool.LocalQueues? && q == 0 {
      k := own;
    } else if cfg.pool.StealingQueues? && q != t {
      if q == 0 {
        k := own;
      } else {
        var i := Reaches(if t == 0 then 0 else t - 1, n, q - 1);
        k := own + 1 + i;
      }
    }
  }

  /** A call goes off to look for work only right after it has found its own result missing, each time anew. */
  lemma {:induction false} HelpsOnlyIfMissing(cfg: Config, s: State, t: nat, a: Action, f: nat)
    requires Inv(cfg, s) && Enabled(cfg, s, t, a)
    requires a.Claim? ==> Taken(cfg, s, t, a.k) < |s.chunks|
    requires f < |s.frames| && !s.frames[f].pc.Polling? && Next(cfg, s, t, a).frames[f].pc.Polling?
    ensures OnTop(s, t, f) && s.frames[f].pc.Waiting? && s.frames[f].pc.chunk < |s.chunks|
    ensures s.chunks[s.frames[f].pc.chunk].promise == None
  {
    hide Inv, IsSplit, ScanOrder, CanMiss, QueuesAfterTake, Taken, PushQueue;
  }

  // ---------- workers ----------

  /** How often `do_sort` has been called on a higher part. */
  function Calls(frames: seq<Frame>): nat {
    if frames == [] then 0
    else Calls(frames[..|frames| - 1]) + if frames[|frames| - 1].target.Parent? then 1 else 0
  }

  lemma {:induction false} CallsAppend(frames: seq<Frame>, fr: Frame)
    ensures Calls(frames + [fr]) == Calls(frames) + if fr.target.Parent? then 1 else 0
  {
    assert (frames + [fr])[..|frames|] == frames;
  }

  lemma {:induction false} CallsUpdate(frames: seq<Frame>, f: nat, fr: Frame)
    requires f < |frames| && fr.target == frames[f].target
    ensures Calls(frames[f := fr]) == Calls(frames)
    decreases |frames|
  {
    var n := |frames| - 1;
    if f < n {
      CallsUpdate(frames[..n], f, fr);
      assert frames[f := fr][..n] == frames[..n][f := fr];
    } else {
      assert frames[f := fr][..n] == frames[..n];
    }
  }

  /** The stack of chunks starts one worker with each call until there are enough; a pool has its workers
      from the start. */
  predicate Workers(cfg: Config, workers: nat, s: State) {
    |s.tops| ==
      1 + if !cfg.pool.ChunkStack? || workers >= cfg.maxWorkers then workers
          else if workers + Calls(s.frames) < cfg.maxWorkers then workers + Calls(s.frames)
          else cfg.maxWorkers
  }

  lemma {:induction false} CallWorkers(cfg: Config, workers: nat, s: State, t: nat, f: nat)
    requires Workers(cfg, workers, s) && f < |s.frames| && t < |s.tops| && s.frames[f].pc.Pushed?
    ensures Workers(cfg, workers, CallHigher(cfg, s, t, f))
  {
    hide Calls;
    var pc, g := s.frames[f].pc, |s.frames|;
    var called := s.frames[f := s.frames[f].(pc := Calling(pc.chunk, pc.higher, g))];
    CallsUpdate(s.frames, f, called[f]);
    CallsAppend(called, Frame(t, pc.higher, Some(f), Parent, Entry));
  }

  lemma {:induction false} ClaimWorkers(cfg: Config, workers: nat, s: State, t: nat, k: nat)
    requires Workers(cfg, workers, s) && CanClaimFrom(cfg, s, t, k)
    ensures Workers(cfg, workers, ClaimChunk(cfg, s, t, k))
  {
    hide Calls, ScanOrder, QueuesAfterTake, Taken;
    var frames := ClaimChunk(cfg, s, t, k).frames;
    var n := |s.frames|;
    assert frames == frames[..n] + [frames[n]];
    CallsAppend(frames[..n], frames[n]);
    if s.tops[t].Some? {
      CallsUpdate(s.frames, s.tops[t].value, frames[s.tops[t].value]);
    }
  }

  lemma {:induction false} ReturnWorkers(cfg: Config, workers: nat, s: State, t: nat, f: nat)
    requires Workers(cfg, workers, s) && CanReturn(s, t, f)
    ensures Workers(cfg, workers, Return(s, t, f))
  {
    hide Calls, Resumed;
    var fr := s.frames[f];
    var gone := s.frames[f := fr.(pc := Gone(fr.pc.out))];
    CallsUpdate(s.frames, f, gone[f]);
    if fr.below.Some? {
      var b := fr.below.value;
      CallsUpdate(gone, b, gone[b].(pc := Resumed(gone[b].pc, fr.pc.out)));
    }
  }

  lemma {:induction false} SetPcWorkers(cfg: Config, workers: nat, s: State, f: nat, pc: Pc)
    requires Workers(cfg, workers, s) && f < |s.frames|
    ensures Workers(cfg, workers, SetPc(s, f, pc))
  {
    hide Calls;
    CallsUpdate(s.frames, f, s.frames[f].(pc := pc));
  }

  lemma {:induction false} NextKeepsWorkers(cfg: Config, workers: nat, s: State, t: nat, a: Action)
    requires Inv(cfg, s) && Workers(cfg, workers, s) && Enabled(cfg, s, t, a)
    requires a.Claim? ==> Taken(cfg, s, t, a.k) < |s.chunks|
    ensures Workers(cfg, workers, Next(cfg, s, t, a))
  {
    hide Inv, Workers, CallHigher, ClaimChunk, Return, IsSplit, ScanOrder;
    if a.Claim? {
      ClaimWorkers(cfg, workers, s, t, a.k);
    } else if s.tops[t].Some? {
      var f := s.tops[t].value;
      match s.frames[f].pc
      case Entry => SetPcWorkers(cfg, workers, s, f, if a.Partition? then Split(a.lower, a.higher) else Finished([]));
      case Split(_, higher) => PushWorkers(cfg, workers, s, t, f);
      case Pushed(_, _) => CallWorkers(cfg, workers, s, t, f);
      case Waiting(_, _, _) => SetPcWorkers(cfg, workers, s, f, CheckFuture(s, f).frames[f].pc);
      case Polling(c, h, sorted) => SetPcWorkers(cfg, workers, s, f, Waiting(c, h, sorted));
      case Finished(_) =>
        ReturnIsPossible(cfg, s, t, f);
        ReturnWorkers(cfg, workers, s, t, f);
      case _ =>
    }
  }

  lemma {:induction false} PushWorkers(cfg: Config, workers: nat, s: State, t: nat, f: nat)
    requires Workers(cfg, workers, s) && f < |s.frames| && s.frames[f].pc.Split? && PushQueue(cfg.pool, t) < |s.queues|
    ensures Workers(cfg, workers, PushChunk(cfg, s, t, f))
  {
    hide Calls;
    CallsUpdate(s.frames, f, PushChunk(cfg, s, t, f).frames[f]);
  }

  /** In every state of every run the queues are in order and the workers are those the calls have started. */
  lemma {:induction false} RunKeepsQueuesAndWorkers(
    cfg: Config, input: seq<int>, workers: nat, states: seq<State>, steps: seq<(nat, Action)>, i: nat)
    requires IsRun(cfg, input, workers, states, steps) && i < |states|
    ensures InOrder(states[i].queues) && Workers(cfg, workers, states[i])
  {
    if i == 0 {
      var frames := Init(input, workers).frames;
      assert frames[..0] == [] && Calls(frames) == 0;
    } else {
      hide Inv, Workers, InOrder;
      RunKeepsInv(cfg, input, workers, states, steps, i - 1);
      RunKeepsQueuesAndWorkers(cfg, input, workers, states, steps, i - 1);
      assert IsStep(cfg, states[i - 1], steps[i - 1], states[i]);
      NextKeepsOrder(cfg, states[i - 1], steps[i - 1].0, steps[i - 1].1);
      NextKeepsWorkers(cfg, workers, states[i - 1], steps[i - 1].0, steps[i - 1].1);
    }
  }
}
