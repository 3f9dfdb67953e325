/**
 * `parallel_partial_sum_pairwise`: one thread for each element runs the kernel over the shared
 * range and buffer and meets the others at the barrier. A step is one access to a shared variable.
 */
module PairwiseScan {
  import Barrier
  import opened LockStepScan
  import Runs
  import opened Sums

  datatype Pc =
    | LoopTest
    | ReadSource
    | ReadAddend(source: int)
    | WriteDest(source: int, addend: int)
    | CallWait
    | InWait
    | CopyRead
    | CopyWrite(value: int)
    | CallDone
    | InDone

  /** The locals of a thread. `stride` is a 32-bit word. */
  datatype Kernel = Kernel(pc: Pc, step: nat, stride: nat, update: bool)

  datatype State = State(range: seq<int>, buffer: seq<int>, kernels: seq<Kernel>, bar: Barrier.State)

  const FIRST := Kernel(LoopTest, 0, 1, false)

  function Init(x: seq<int>): State {
    State(x, seq(|x|, (i: nat) => 0), seq(|x|, (i: nat) => FIRST), Barrier.Init(|x|))
  }

  predicate Shaped(s: State) {
    |s.range| == |s.buffer| == |s.kernels| == |s.bar.pcs| == |s.bar.phase|
  }

  predicate Finished(s: State, i: nat)
    requires Shaped(s) && i < |s.kernels|
  {
    s.bar.pcs[i].Gone?
  }

  /** The next iteration of the loop, after `wait` has returned. */
  function NextIteration(k: Kernel): Kernel {
    Kernel(LoopTest, k.step + 1, k.stride * 2 % 0x1_0000_0000, k.update)
  }

  function KernelStep(s: State, i: nat): State
    requires Shaped(s) && i < |s.kernels| && s.bar.pcs[i].Out?
  {
    var k := s.kernels[i];
    var odd := k.step % 2 == 1;
    match k.pc
    case LoopTest =>
      var next := if k.stride <= i then ReadSource else if k.update then CopyRead else CallDone;
      s.(kernels := s.kernels[i := k.(pc := next)])
    case ReadSource =>
      s.(kernels := s.kernels[i := k.(pc := ReadAddend(if odd then s.buffer[i] else s.range[i]))])
    case ReadAddend(source) =>
      var j := if k.stride <= i then i - k.stride else i;
      s.(kernels := s.kernels[i := k.(pc := WriteDest(source, if odd then s.buffer[j] else s.range[j]))])
    case WriteDest(source, addend) =>
      var kernels := s.kernels[i := k.(pc := CallWait, update := !odd)];
      if odd then s.(kernels := kernels, range := s.range[i := source + addend])
      else s.(kernels := kernels, buffer := s.buffer[i := source + addend])
    case CallWait =>
      s.(kernels := s.kernels[i := k.(pc := InWait)], bar := Barrier.Next(s.bar, i, Barrier.CallWait))
    case CopyRead =>
      s.(kernels := s.kernels[i := k.(pc := CopyWrite(s.buffer[i]))])
    case CopyWrite(value) =>
      s.(kernels := s.kernels[i := k.(pc := CallDone)], range := s.range[i := value])
    case CallDone =>
      s.(kernels := s.kernels[i := k.(pc := InDone)], bar := Barrier.Next(s.bar, i, Barrier.CallDone))
    case _ => s
  }

  function BarrierStep(s: State, i: nat): State
    requires Shaped(s) && i < |s.kernels| && !s.bar.pcs[i].Out? && !s.bar.pcs[i].Gone?
  {
    var bar := Barrier.Next(s.bar, i, Barrier.Go);
    s.(bar := bar, kernels := if bar.pcs[i].Out? then s.kernels[i := NextIteration(s.kernels[i])] else s.kernels)
  }

  /** One step of thread `i`. A thread that has finished does nothing. */
  function Next(s: State, i: nat): State
    requires Shaped(s)
  {
    if i >= |s.kernels| || Finished(s, i) then s
    else if s.bar.pcs[i].Out? then KernelStep(s, i)
    else BarrierStep(s, i)
  }

  // ---------- invariant ----------

  predicate Working(pc: Pc) {
    pc.ReadSource? || pc.ReadAddend? || pc.WriteDest? || pc.CallWait? || pc.InWait?
  }

  predicate Copying(pc: Pc) {
    pc.CopyRead? || pc.CopyWrite?
  }

  predicate LocalsOk(k: Kernel, i: nat) {
    && k.stride == Pow2(k.step)
    && (k.step > 0 ==> Active(i, k.step - 1))
    && (Working(k.pc) ==> Active(i, k.step))
    && (Copying(k.pc) ==> !Active(i, k.step) && k.step % 2 == 1)
    && (k.pc.CallDone? || k.pc.InDone? ==> !Active(i, k.step))
    && (k.update <==> (k.step % 2 == if k.pc.CallWait? || k.pc.InWait? then 0 else 1))
  }

  predicate AtBarrier(k: Kernel, p: Barrier.Pc, phase: nat) {
    match p
    case Out => !k.pc.InWait? && !k.pc.InDone? && k.step == phase
    case Loaded(_) => k.pc.InWait? && k.step == phase
    case Leaving => k.pc.InDone? && k.step == phase
    case Spinning(_) => k.pc.InWait? && k.step + 1 == phase
    case Last(l) => (if l then k.pc.InDone? else k.pc.InWait?) && k.step + 1 == phase
    case Reload(l, _) => (if l then k.pc.InDone? else k.pc.InWait?) && k.step + 1 == phase
    case Bump(l) => (if l then k.pc.InDone? else k.pc.InWait?) && k.step + 1 == phase
    case Gone => k.pc.InDone? && k.step + 1 == phase
  }

  predicate ValuesOk(x: seq<int>, k: Kernel, i: nat)
    requires i < |x| && LocalsOk(k, i)
  {
    var a := LockStep(x, k.step);
    && (k.pc.ReadAddend? || k.pc.WriteDest? ==> k.pc.source == Source(a, k.step, i))
    && (k.pc.WriteDest? ==> k.pc.addend == Source(a, k.step, i - Pow2(k.step)))
    && (k.pc.CopyWrite? ==> k.pc.value == a.buffer[i])
  }

  predicate KernelOk(x: seq<int>, s: State, i: nat)
    requires Shaped(s) && |s.kernels| == |x| && i < |x|
  {
    && LocalsOk(s.kernels[i], i)
    && ValuesOk(x, s.kernels[i], i)
    && AtBarrier(s.kernels[i], s.bar.pcs[i], s.bar.phase[i])
  }

  /** Thread `i` has written all it writes before the generation changes. */
  predicate Settled(s: State, i: nat)
    requires Shaped(s) && i < |s.kernels|
  {
    || s.bar.pcs[i].Gone? || s.bar.phase[i] == s.bar.round + 1
    || s.bar.pcs[i].Loaded? || s.bar.pcs[i].Leaving?
    || s.kernels[i].pc.CallWait? || s.kernels[i].pc.CallDone?
  }

  predicate CellIs(s: State, i: nat, a: Arrays)
    requires Shaped(s) && i < |s.kernels| == |a.range| == |a.buffer|
  {
    s.range[i] == a.range[i] && s.buffer[i] == a.buffer[i]
  }

  /** Every cell is as in the lock-step run, before or after the current step. */
  predicate CellsOk(x: seq<int>, s: State, i: nat)
    requires Shaped(s) && |s.kernels| == |x| && i < |x|
  {
    if Settled(s, i) then CellIs(s, i, LockStep(x, s.bar.round + 1)) else CellIs(s, i, LockStep(x, s.bar.round))
  }

  ghost predicate Inv(x: seq<int>, s: State) {
    && Shaped(s) && |s.kernels| == |x| && |x| <= 0x8000_0000
    && Barrier.Inv(s.bar)
    && (forall i :: 0 <= i < |x| ==> KernelOk(x, s, i))
    && (forall i :: 0 <= i < |x| ==> CellsOk(x, s, i))
  }

  lemma {:induction false} InitInv(x: seq<int>)
    requires |x| <= 0x8000_0000
    ensures Inv(x, Init(x))
  {
    Barrier.InitInv(|x|);
  }

  /** What a thread may read in the current step is the same for everyone, settled or not. */
  lemma {:induction false} SourceStable(x: seq<int>, s: State, j: nat)
    requires Shaped(s) && |s.kernels| == |x| && j < |x| && CellsOk(x, s, j)
    ensures (if s.bar.round % 2 == 1 then s.buffer[j] else s.range[j]) ==
      Source(LockStep(x, s.bar.round), s.bar.round, j)
  {
    SourceKept(x, s.bar.round, j);
  }

  /** Thread `i` is outside the barrier, and its invariants hold. */
  predicate Ready(x: seq<int>, s: State, i: nat) {
    && Shaped(s) && |s.kernels| == |x| <= 0x8000_0000 && i < |x| && s.bar.pcs[i].Out?
    && s.bar.phase[i] == s.bar.round
    && KernelOk(x, s, i) && CellsOk(x, s, i)
  }

  lemma {:induction false} OwnLoopTest(x: seq<int>, s: State, i: nat)
    requires Ready(x, s, i) && s.kernels[i].pc.LoopTest?
    ensures KernelOk(x, KernelStep(s, i), i) && CellsOk(x, KernelStep(s, i), i)
  {
    hide LockStep, Sum;
    StepCells(x, s.bar.round, i);
  }

  lemma {:induction false} OwnRead(x: seq<int>, s: State, i: nat)
    requires Ready(x, s, i) && (s.kernels[i].pc.ReadSource? || s.kernels[i].pc.ReadAddend? || s.kernels[i].pc.CopyRead?)
    requires s.kernels[i].pc.ReadAddend? ==> CellsOk(x, s, i - Pow2(s.kernels[i].step))
    ensures KernelOk(x, KernelStep(s, i), i) && CellsOk(x, KernelStep(s, i), i)
  {
    hide LockStep, Sum;
    SourceStable(x, s, i);
    if s.kernels[i].pc.ReadAddend? {
      SourceStable(x, s, i - Pow2(s.kernels[i].step));
    }
  }

  lemma {:induction false} OwnWrite(x: seq<int>, s: State, i: nat)
    requires Ready(x, s, i) && (s.kernels[i].pc.WriteDest? || s.kernels[i].pc.CopyWrite?)
    ensures KernelOk(x, KernelStep(s, i), i) && CellsOk(x, KernelStep(s, i), i)
  {
    hide LockStep, Sum;
    StepCells(x, s.bar.round, i);
  }

  /** A kernel step touches no cell but the thread's own. */
  lemma {:induction false} KernelStepOther(x: seq<int>, s: State, i: nat, j: nat)
    requires Ready(x, s, i) && j < |x| && j != i && !s.kernels[i].pc.CallWait? && !s.kernels[i].pc.CallDone?
    requires KernelOk(x, s, j) && CellsOk(x, s, j)
    ensures KernelOk(x, KernelStep(s, i), j) && CellsOk(x, KernelStep(s, i), j)
  {
    hide LockStep, Sum;
  }

  lemma {:induction false} KernelStepKeepsInv(x: seq<int>, s: State, i: nat)
    requires Inv(x, s) && i < |x| && s.bar.pcs[i].Out? && !s.kernels[i].pc.CallWait? && !s.kernels[i].pc.CallDone?
    ensures Inv(x, KernelStep(s, i))
  {
    var s' := KernelStep(s, i);
    assert Barrier.PcOk(s.bar, i);
    forall j | 0 <= j < |x| ensures KernelOk(x, s', j) && CellsOk(x, s', j) {
      assert KernelOk(x, s, j) && CellsOk(x, s, j);
      if j != i {
        KernelStepOther(x, s, i, j);
      } else if s.kernels[i].pc.LoopTest? {
        OwnLoopTest(x, s, i);
      } else if s.kernels[i].pc.WriteDest? || s.kernels[i].pc.CopyWrite? {
        OwnWrite(x, s, i);
      } else {
        OwnRead(x, s, i);
      }
    }
  }

  /** Nothing that concerns thread `j` has changed. */
  predicate SameFor(s: State, s': State, j: nat) {
    && Shaped(s) && Shaped(s') && |s'.kernels| == |s.kernels| && j < |s.kernels|
    && s'.kernels[j] == s.kernels[j] && s'.range[j] == s.range[j] && s'.buffer[j] == s.buffer[j]
    && s'.bar.pcs[j] == s.bar.pcs[j] && s'.bar.phase[j] == s.bar.phase[j] && s'.bar.round == s.bar.round
  }

  lemma {:induction false} SameKeepsOk(x: seq<int>, s: State, s': State, j: nat)
    requires SameFor(s, s', j) && |s.kernels| == |x| && KernelOk(x, s, j) && CellsOk(x, s, j)
    ensures KernelOk(x, s', j) && CellsOk(x, s', j)
  {
  }

  lemma {:induction false} OwnCall(x: seq<int>, s: State, i: nat)
    requires Ready(x, s, i) && (s.kernels[i].pc.CallWait? || s.kernels[i].pc.CallDone?)
    ensures KernelOk(x, KernelStep(s, i), i) && CellsOk(x, KernelStep(s, i), i)
  {
    hide LockStep, Sum;
  }

  lemma {:induction false} CallKeepsInv(x: seq<int>, s: State, i: nat)
    requires Inv(x, s) && i < |x| && s.bar.pcs[i].Out? && (s.kernels[i].pc.CallWait? || s.kernels[i].pc.CallDone?)
    ensures Inv(x, KernelStep(s, i))
  {
    var s' := KernelStep(s, i);
    assert Barrier.PcOk(s.bar, i);
    Barrier.NextKeepsInv(s.bar, i, if s.kernels[i].pc.CallWait? then Barrier.CallWait else Barrier.CallDone);
    forall j | 0 <= j < |x| ensures KernelOk(x, s', j) && CellsOk(x, s', j) {
      assert KernelOk(x, s, j) && CellsOk(x, s, j);
      if j == i {
        OwnCall(x, s, i);
      } else {
        SameKeepsOk(x, s, s', j);
      }
    }
  }

  /** `stride` never wraps. */
  lemma {:induction false} StrideFits(i: nat, step: nat)
    requires Active(i, step) && i < 0x8000_0000
    ensures Pow2(step) * 2 % 0x1_0000_0000 == Pow2(step + 1)
  {
  }

  predicate InBarrier(x: seq<int>, s: State, i: nat) {
    && Shaped(s) && i < |s.kernels| == |x| <= 0x8000_0000 && Barrier.PcOk(s.bar, i)
    && !s.bar.pcs[i].Out? && !s.bar.pcs[i].Gone?
    && KernelOk(x, s, i) && CellsOk(x, s, i)
  }

  lemma {:induction false} OwnArrival(x: seq<int>, s: State, i: nat)
    requires InBarrier(x, s, i) && (s.bar.pcs[i].Loaded? || s.bar.pcs[i].Leaving?)
    ensures KernelOk(x, BarrierStep(s, i), i) && CellsOk(x, BarrierStep(s, i), i)
  {
    var s' := BarrierStep(s, i);
    assert s'.kernels == s.kernels && s'.bar.round == s.bar.round && s'.bar.phase[i] == s.bar.phase[i] + 1;
  }

  lemma {:induction false} OwnClosing(x: seq<int>, s: State, i: nat)
    requires InBarrier(x, s, i) && (s.bar.pcs[i].Last? || s.bar.pcs[i].Reload?)
    ensures KernelOk(x, BarrierStep(s, i), i) && CellsOk(x, BarrierStep(s, i), i)
  {
    var s' := BarrierStep(s, i);
    assert s'.kernels == s.kernels && s'.bar.round == s.bar.round && s'.bar.phase == s.bar.phase;
  }

  lemma {:induction false} OwnSpin(x: seq<int>, s: State, i: nat)
    requires InBarrier(x, s, i) && s.bar.pcs[i].Spinning?
    ensures KernelOk(x, BarrierStep(s, i), i) && CellsOk(x, BarrierStep(s, i), i)
  {
    hide LockStep, Sum;
    var s' := BarrierStep(s, i);
    assert s'.bar.round == s.bar.round && s'.bar.phase == s.bar.phase;
    StrideFits(i, s.kernels[i].step);
  }

  lemma {:induction false} BarrierStepKeepsCell(x: seq<int>, s: State, i: nat, j: nat)
    requires Inv(x, s) && i < |x| && j < |x| && !s.bar.pcs[i].Out? && !s.bar.pcs[i].Gone? && !s.bar.pcs[i].Bump?
    ensures KernelOk(x, BarrierStep(s, i), j) && CellsOk(x, BarrierStep(s, i), j)
  {
    assert KernelOk(x, s, j) && CellsOk(x, s, j) && Barrier.PcOk(s.bar, j);
    if j == i {
      if s.bar.pcs[i].Spinning? {
        OwnSpin(x, s, i);
      } else if s.bar.pcs[i].Last? || s.bar.pcs[i].Reload? {
        OwnClosing(x, s, i);
      } else {
        OwnArrival(x, s, i);
      }
    } else {
      SameKeepsOk(x, s, BarrierStep(s, i), j);
    }
  }

  lemma {:induction false} BumpKeepsKernel(x: seq<int>, s: State, i: nat, j: nat)
    requires Inv(x, s) && i < |x| && j < |x| && s.bar.pcs[i].Bump?
    ensures KernelOk(x, BarrierStep(s, i), j)
  {
    assert KernelOk(x, s, j);
    if j == i {
      BumpStartsIteration(x, s, i);
    } else {
      var s' := BarrierStep(s, i);
      assert s'.kernels[j] == s.kernels[j] && s'.bar.pcs[j] == s.bar.pcs[j];
    }
  }

  lemma {:induction false} NextIterationOk(x: seq<int>, k: Kernel, i: nat)
    requires i < |x| <= 0x8000_0000 && LocalsOk(k, i) && k.pc.InWait?
    ensures LocalsOk(NextIteration(k), i) && ValuesOk(x, NextIteration(k), i)
  {
    StrideFits(i, k.step);
  }

  lemma {:induction false} BumpStartsIteration(x: seq<int>, s: State, i: nat)
    requires Shaped(s) && i < |s.kernels| == |x| <= 0x8000_0000 && s.bar.pcs[i].Bump? && KernelOk(x, s, i)
    ensures KernelOk(x, BarrierStep(s, i), i)
  {
    hide LocalsOk, ValuesOk;
    if s.kernels[i].pc.InWait? {
      NextIterationOk(x, s.kernels[i], i);
    }
  }

  /** At the end of a generation everyone is settled. */
  lemma {:induction false} AllSettled(s: State, i: nat, j: nat)
    requires Shaped(s) && Barrier.Inv(s.bar) && i < |s.kernels| && j < |s.kernels| && s.bar.pcs[i].Bump?
    ensures s.bar.pcs[j].Gone? || s.bar.phase[j] == s.bar.round + 1
  {
    assert Barrier.PcOk(s.bar, j);
    assert Barrier.Closing(s.bar.pcs[i]);
    assert j !in Barrier.Missing(s.bar);
  }

  lemma {:induction false} DoneStaysSettled(x: seq<int>, s: State, i: nat, j: nat)
    requires Shaped(s) && i < |s.kernels| == |x| && j < |x| && s.bar.pcs[i].Bump?
    requires CellsOk(x, s, j) && Settled(s, j) && j < Pow2(s.bar.round)
    ensures CellsOk(x, BarrierStep(s, i), j)
  {
    hide LockStep, Sum;
    AtRest(x, s.bar.round + 1, s.bar.round + 2, j);
  }

  lemma {:induction false} WaiterUnsettles(x: seq<int>, s: State, i: nat, j: nat)
    requires Shaped(s) && i < |s.kernels| == |x| && j < |x| && s.bar.pcs[i].Bump?
    requires CellsOk(x, s, j) && s.bar.phase[j] == s.bar.round + 1 && Barrier.PcOk(s.bar, j)
    requires s.kernels[j].pc.InWait? && AtBarrier(s.kernels[j], s.bar.pcs[j], s.bar.phase[j])
    ensures CellsOk(x, BarrierStep(s, i), j)
  {
    assert !Settled(BarrierStep(s, i), j);
  }

  /** When the generation changes, all cells are as after the step, and those of finished threads
      are as after the next one too. */
  lemma {:induction false} BumpKeepsCell(x: seq<int>, s: State, i: nat, j: nat)
    requires Inv(x, s) && i < |x| && j < |x| && s.bar.pcs[i].Bump?
    ensures CellsOk(x, BarrierStep(s, i), j)
  {
    AllSettled(s, i, j);
    assert KernelOk(x, s, j) && CellsOk(x, s, j) && Barrier.PcOk(s.bar, j);
    if s.kernels[j].pc.InDone? {
      Pow2Monotone(s.kernels[j].step, s.bar.round);
      DoneStaysSettled(x, s, i, j);
    } else {
      WaiterUnsettles(x, s, i, j);
    }
  }

  lemma {:induction false} NextKeepsInv(x: seq<int>, s: State, i: nat)
    requires Inv(x, s)
    ensures Inv(x, Next(s, i))
  {
    if i < |x| && !Finished(s, i) {
      if s.bar.pcs[i].Out? {
        if s.kernels[i].pc.CallWait? || s.kernels[i].pc.CallDone? {
          CallKeepsInv(x, s, i);
        } else {
          assert KernelOk(x, s, i);
          KernelStepKeepsInv(x, s, i);
        }
      } else {
        Barrier.NextKeepsInv(s.bar, i, Barrier.Go);
        var s' := BarrierStep(s, i);
        forall j | 0 <= j < |x| ensures KernelOk(x, s', j) && CellsOk(x, s', j) {
          if s.bar.pcs[i].Bump? {
            BumpKeepsKernel(x, s, i, j);
            BumpKeepsCell(x, s, i, j);
          } else {
            BarrierStepKeepsCell(x, s, i, j);
          }
        }
      }
    }
  }

  // ---------- race freedom ----------

  datatype Access = Nothing | Read(inRange: bool, index: nat) | Write(inRange: bool, index: nat)

  /** The access to the range or the buffer that is the next step of thread `i`. */
  function NextAccess(s: State, i: nat): Access
    requires Shaped(s) && i < |s.kernels|
  {
    var k := s.kernels[i];
    var odd := k.step % 2 == 1;
    match k.pc
    case ReadSource => Read(!odd, i)
    case ReadAddend(_) => Read(!odd, if k.stride <= i then i - k.stride else i)
    case WriteDest(_, _) => Write(odd, i)
    case CopyRead => Read(false, i)
    case CopyWrite(_) => Write(true, i)
    case _ => Nothing
  }

  predicate Conflict(a: Access, b: Access) {
    && (a.Write? || b.Write?) && !a.Nothing? && !b.Nothing?
    && a.inRange == b.inRange && a.index == b.index
  }

  /** Within a generation everyone reads one array and writes cells of its own in the other. */
  lemma {:induction false} AccessDiscipline(x: seq<int>, s: State, i: nat)
    requires Inv(x, s) && i < |x|
    ensures match NextAccess(s, i)
      case Nothing => true
      case Read(inRange, _) => inRange == (s.bar.round % 2 == 0)
      case Write(inRange, index) => inRange == (s.bar.round % 2 == 1) && index == i
  {
    assert KernelOk(x, s, i) && Barrier.PcOk(s.bar, i);
  }

  /** Accesses of two threads in the same generation, at whatever times, never conflict. */
  lemma {:induction false} NoRaces(x: seq<int>, s: State, s': State, i: nat, j: nat)
    requires Inv(x, s) && Inv(x, s') && s.bar.round == s'.bar.round && i < |x| && j < |x| && i != j
    ensures !Conflict(NextAccess(s, i), NextAccess(s', j))
  {
    AccessDiscipline(x, s, i);
    AccessDiscipline(x, s', j);
  }

  // ---------- result of every schedule ----------

  predicate AllFinished(s: State)
    requires Shaped(s)
  {
    forall i :: 0 <= i < |s.kernels| ==> Finished(s, i)
  }

  lemma {:induction false} NextShaped(s: State, i: nat)
    requires Shaped(s)
    ensures Shaped(Next(s, i)) && |Next(s, i).kernels| == |s.kernels|
  {
  }

  /** Runs the threads in the order given by the schedule. */
  function Exec(s: State, schedule: seq<nat>): (r: State)
    requires Shaped(s)
    ensures Shaped(r) && |r.kernels| == |s.kernels|
    decreases |schedule|
  {
    if schedule == [] then s
    else
      NextShaped(s, schedule[0]);
      Exec(Next(s, schedule[0]), schedule[1..])
  }

  lemma {:induction false} ExecKeepsInv(x: seq<int>, s: State, schedule: seq<nat>)
    requires Inv(x, s)
    ensures Inv(x, Exec(s, schedule))
    decreases schedule
  {
    if schedule != [] {
      NextKeepsInv(x, s, schedule[0]);
      ExecKeepsInv(x, Next(s, schedule[0]), schedule[1..]);
    }
  }

  /** A thread that has finished has passed the steps in which it took part, and its cell is settled. */
  lemma {:induction false} FinishedAtRest(x: seq<int>, s: State, i: nat)
    requires Inv(x, s) && i < |x| && Finished(s, i)
    ensures i < Pow2(s.bar.round) && s.range[i] == LockStep(x, s.bar.round + 1).range[i]
  {
    hide LockStep, Sum, Pow2, ValuesOk;
    assert KernelOk(x, s, i) && CellsOk(x, s, i) && Barrier.PcOk(s.bar, i);
    Pow2Monotone(s.kernels[i].step, s.bar.round);
  }

  lemma {:induction false} FinishedCell(x: seq<int>, s: State, i: nat)
    requires Inv(x, s) && i < |x| && Finished(s, i)
    ensures s.range[i] == Result(x)[i]
  {
    hide LockStep, Sum, Inv, Pow2;
    FinishedAtRest(x, s, i);
    Pow2Exceeds(|x|);
    var late := s.bar.round + |x| + 2;
    AtRest(x, s.bar.round + 1, late, i);
    AtRest(x, |x| + 1, late, i);
  }

  /** Whatever the interleaving, once all threads have finished the range holds what the lock-step
      run leaves in it. */
  lemma {:induction false} ScheduleIndependent(x: seq<int>, schedule: seq<nat>)
    requires |x| <= 0x8000_0000
    requires AllFinished(Exec(Init(x), schedule))
    ensures Exec(Init(x), schedule).range == Result(x)
  {
    InitInv(x);
    ExecKeepsInv(x, Init(x), schedule);
    var s := Exec(Init(x), schedule);
    forall i | 0 <= i < |x| ensures s.range[i] == Result(x)[i] {
      assert Finished(s, i);
      FinishedCell(x, s, i);
    }
  }

  // ---------- progress ----------

  predicate Spins(s: State, i: nat)
    requires Shaped(s) && i < |s.kernels|
  {
    Barrier.Stutters(s.bar, i)
  }

  /** No reachable state is stuck: unless all have finished, some thread has a step that is not a
      spin, and by `MovesBounded` there are only so many of those. */
  lemma {:induction false} NeverStuck(x: seq<int>, s: State)
    requires Inv(x, s) && !AllFinished(s)
    ensures exists i: nat :: i < |x| && !Finished(s, i) && !Spins(s, i)
  {
    var k :| 0 <= k < |x| && !Finished(s, k);
    var i := Barrier.SomeoneCanMove(s.bar, k);
    assert i < |x| && !Finished(s, i) && !Spins(s, i);
  }

  /** An upper bound on the steps thread `i` has before it, not counting spins. */
  function ThreadWork(k: Kernel, p: Barrier.Pc, i: nat): nat {
    var later := if Steps(i) >= k.step then 16 * (Steps(i) - k.step) else 0;
    match p
    case Out => (
      match k.pc
      case LoopTest => later + 15
      case ReadSource => later + 14
      case ReadAddend(_) => later + 13
      case WriteDest(_, _) => later + 12
      case CallWait => later + 11
      case CopyRead => 14
      case CopyWrite(_) => 13
      case CallDone => 12
      case _ => 0)
    case Loaded(_) => later + 10
    case Spinning(_) => later + 6
    case Leaving => 11
    case Last(l) => (if l then 0 else later) + 9
    case Reload(l, _) => (if l then 0 else later) + 8
    case Bump(l) => (if l then 0 else later) + 7
    case Gone => 0
  }

  function WorkOf(s: State): nat -> int
    requires Shaped(s)
  {
    (i: nat) => if i < |s.kernels| then ThreadWork(s.kernels[i], s.bar.pcs[i], i) else 0
  }

  function Work(s: State): int
    requires Shaped(s)
  {
    Runs.Total(|s.kernels|, WorkOf(s))
  }

  lemma {:induction false} ActiveMeansSteps(i: nat, g: nat)
    ensures Active(i, g) <==> g < Steps(i)
  {
    StepsAtMost(i, g);
  }

  /** The loop goes on exactly as long as there are steps left. */
  lemma {:induction false} StepsLeft(k: Kernel, i: nat)
    requires LocalsOk(k, i)
    ensures k.step <= Steps(i)
    ensures k.stride <= i <==> k.step < Steps(i)
    ensures Working(k.pc) ==> k.step < Steps(i)
  {
    ActiveMeansSteps(i, k.step);
    if k.step > 0 {
      ActiveMeansSteps(i, k.step - 1);
    }
  }

  lemma {:induction false} KernelWorkDrops(x: seq<int>, s: State, i: nat)
    requires Shaped(s) && i < |s.kernels| == |x| && KernelOk(x, s, i) && s.bar.pcs[i].Out?
    ensures var s' := KernelStep(s, i);
      ThreadWork(s'.kernels[i], s'.bar.pcs[i], i) < ThreadWork(s.kernels[i], s.bar.pcs[i], i)
  {
    hide ValuesOk, Steps, LocalsOk;
    StepsLeft(s.kernels[i], i);
  }

  lemma {:induction false} BarrierWorkDrops(x: seq<int>, s: State, i: nat)
    requires Shaped(s) && i < |s.kernels| == |x| && KernelOk(x, s, i)
    requires !s.bar.pcs[i].Out? && !Finished(s, i) && !Spins(s, i)
    ensures var s' := BarrierStep(s, i);
      ThreadWork(s'.kernels[i], s'.bar.pcs[i], i) < ThreadWork(s.kernels[i], s.bar.pcs[i], i)
  {
    hide ValuesOk, Steps, LocalsOk;
    StepsLeft(s.kernels[i], i);
  }

  lemma {:induction false} ThreadWorkDrops(x: seq<int>, s: State, i: nat)
    requires Shaped(s) && i < |s.kernels| == |x| && KernelOk(x, s, i) && !Finished(s, i) && !Spins(s, i)
    ensures var s' := Next(s, i);
      ThreadWork(s'.kernels[i], s'.bar.pcs[i], i) < ThreadWork(s.kernels[i], s.bar.pcs[i], i)
  {
    hide KernelOk, ThreadWork, KernelStep, BarrierStep;
    if s.bar.pcs[i].Out? {
      KernelWorkDrops(x, s, i);
    } else {
      BarrierWorkDrops(x, s, i);
    }
  }

  lemma {:induction false} NextOnlyOwn(s: State, i: nat, j: nat)
    requires Shaped(s) && j < |s.kernels| && j != i
    ensures Next(s, i).kernels[j] == s.kernels[j] && Next(s, i).bar.pcs[j] == s.bar.pcs[j]
  {
  }

  /** Every step but a spin uses work up, and a spin changes nothing. */
  lemma {:induction false} StepsUseWork(x: seq<int>, s: State, i: nat)
    requires Inv(x, s) && i < |x| && !Finished(s, i)
    ensures Spins(s, i) ==> Next(s, i) == s
    ensures !Spins(s, i) ==> Work(Next(s, i)) < Work(s)
  {
    hide Inv, KernelOk, Work, Steps;
    KernelIsOk(x, s, i);
    if !Spins(s, i) {
      MoveUsesWork(x, s, i);
    }
  }

  lemma {:induction false} KernelIsOk(x: seq<int>, s: State, i: nat)
    requires Inv(x, s) && i < |x|
    ensures Shaped(s) && |s.kernels| == |x| && KernelOk(x, s, i)
  {
    hide KernelOk;
  }

  lemma {:induction false} MoveUsesWork(x: seq<int>, s: State, i: nat)
    requires Shaped(s) && i < |s.kernels| == |x| && KernelOk(x, s, i) && !Finished(s, i) && !Spins(s, i)
    ensures Work(Next(s, i)) < Work(s)
  {
    hide Next, ThreadWork, KernelOk, Spins;
    NextShaped(s, i);
    ThreadWorkDrops(x, s, i);
    forall j | 0 <= j < |x| && j != i
      ensures Next(s, i).kernels[j] == s.kernels[j] && Next(s, i).bar.pcs[j] == s.bar.pcs[j]
    {
      NextOnlyOwn(s, i, j);
    }
    Runs.TotalChange(|s.kernels|, WorkOf(s), WorkOf(Next(s, i)), i);
  }

  predicate Moves(s: State, i: nat)
    requires Shaped(s)
  {
    i < |s.kernels| && !Finished(s, i) && !Spins(s, i)
  }

  /** The steps of a schedule that are not spins and not those of threads that have finished. */
  function MovesIn(s: State, schedule: seq<nat>): nat
    requires Shaped(s)
    decreases |schedule|
  {
    if schedule == [] then 0
    else
      NextShaped(s, schedule[0]);
      (if Moves(s, schedule[0]) then 1 else 0) + MovesIn(Next(s, schedule[0]), schedule[1..])
  }

  lemma {:induction false} MovesUseWork(x: seq<int>, s: State, schedule: seq<nat>)
    requires Inv(x, s)
    ensures MovesIn(s, schedule) <= Work(s)
    decreases |schedule|
  {
    if schedule == [] {
      Runs.TotalNotNegative(|s.kernels|, WorkOf(s));
    } else {
      var i := schedule[0];
      NextKeepsInv(x, s, i);
      if i < |x| && !Finished(s, i) {
        StepsUseWork(x, s, i);
      }
      MovesUseWork(x, Next(s, i), schedule[1..]);
    }
  }

  lemma {:induction false} WorkAtStart(x: seq<int>, n: nat)
    requires n <= |x|
    ensures Runs.Total(n, WorkOf(Init(x))) <= n * (16 * Steps(|x|) + 15)
  {
    hide Steps, WorkOf;
    if n > 0 {
      WorkAtStart(x, n - 1);
      ThreadWorkAtStart(x, n - 1);
      OneMore(n - 1, 16 * Steps(|x|) + 15);
    }
  }

  lemma {:induction false} ThreadWorkAtStart(x: seq<int>, i: nat)
    requires i < |x|
    ensures WorkOf(Init(x))(i) <= 16 * Steps(|x|) + 15
  {
    StepsAtMost(i, Steps(|x|));
  }

  lemma {:induction false} OneMore(n: nat, each: nat)
    ensures (n + 1) * each == n * each + each
  {
  }

  /** Every schedule ends: each thread makes at most sixteen moves for each step of the longest thread,
      and fifteen more. */
  lemma {:induction false} MovesBounded(x: seq<int>, schedule: seq<nat>)
    requires |x| <= 0x8000_0000
    ensures MovesIn(Init(x), schedule) <= |x| * (16 * Steps(|x|) + 15)
  {
    InitInv(x);
    MovesUseWork(x, Init(x), schedule);
    WorkAtStart(x, |x|);
  }

  // ---------- in place ----------

  /** The shared variables of a call and the locals of its threads. */
  class Threads {
    const range: array<int>
    const buffer: array<int>
    const bar: Barrier.SharedBarrier
    var kernels: seq<Kernel>

    ghost function Current(): State
      reads this, range, buffer, bar
    {
      State(range[..], buffer[..], kernels, bar.Current())
    }

    ghost predicate Valid(x: seq<int>)
      reads this, range, buffer, bar
    {
      range != buffer && Inv(x, Current())
    }

    constructor (range: array<int>)
      requires range.Length <= 0x8000_0000
      ensures this.range == range && fresh(buffer) && fresh(bar)
      ensures Valid(range[..]) && Current() == Init(range[..])
    {
      this.range := range;
      buffer := new int[range.Length](i => 0);
      bar := new Barrier.SharedBarrier(range.Length);
      kernels := seq(range.Length, (i: nat) => FIRST);
      new;
      InitInv(range[..]);
      assert buffer[..] == seq(range.Length, (i: nat) => 0);
    }

    method BarrierStepOf(ghost x: seq<int>, i: nat)
      requires Valid(x) && i < |kernels| && !bar.pcs[i].Out? && !bar.pcs[i].Gone?
      modifies this, bar
      ensures Current() == old(BarrierStep(Current(), i))
    {
      bar.Step(i, Barrier.Go);
      if bar.pcs[i].Out? {
        kernels := kernels[i := NextIteration(kernels[i])];
      }
    }

    /** Writes the sum to the array that the current step does not read. */
    method Write(ghost x: seq<int>, i: nat)
      requires Valid(x) && i < |kernels| && bar.pcs[i].Out? && kernels[i].pc.WriteDest?
      modifies this, range, buffer
      ensures Current() == old(KernelStep(Current(), i))
    {
      hide KernelOk, CellsOk;
      var k := kernels[i];
      var odd := k.step % 2 == 1;
      if odd {
        range[i] := k.pc.source + k.pc.addend;
      } else {
        buffer[i] := k.pc.source + k.pc.addend;
      }
      kernels := kernels[i := k.(pc := CallWait, update := !odd)];
    }

    /** Calls `wait` or `done_waiting` of the barrier. */
    method Arrive(ghost x: seq<int>, i: nat)
      requires Valid(x) && i < |kernels| && bar.pcs[i].Out? && (kernels[i].pc.CallWait? || kernels[i].pc.CallDone?)
      modifies this, bar
      ensures Current() == old(KernelStep(Current(), i))
    {
      hide KernelOk, CellsOk;
      var k := kernels[i];
      bar.Step(i, if k.pc.CallWait? then Barrier.CallWait else Barrier.CallDone);
      kernels := kernels[i := k.(pc := if k.pc.CallWait? then InWait else InDone)];
    }

    method KernelStepOf(ghost x: seq<int>, i: nat)
      requires Valid(x) && i < |kernels| && bar.pcs[i].Out?
      modifies this, range, buffer, bar
      ensures Current() == old(KernelStep(Current(), i))
    {
      hide KernelOk, CellsOk;
      var k := kernels[i];
      var odd := k.step % 2 == 1;
      match k.pc
      case LoopTest =>
        var next := if k.stride <= i then ReadSource else if k.update then CopyRead else CallDone;
        kernels := kernels[i := k.(pc := next)];
      case ReadSource =>
        kernels := kernels[i := k.(pc := ReadAddend(if odd then buffer[i] else range[i]))];
      case ReadAddend(source) =>
        var j := if k.stride <= i then i - k.stride else i;
        kernels := kernels[i := k.(pc := WriteDest(source, if odd then buffer[j] else range[j]))];
      case WriteDest(_, _) => Write(x, i);
      case CallWait => Arrive(x, i);
      case CopyRead => kernels := kernels[i := k.(pc := CopyWrite(buffer[i]))];
      case CopyWrite(value) =>
        range[i] := value;
        kernels := kernels[i := k.(pc := CallDone)];
      case CallDone => Arrive(x, i);
      case _ =>
    }

    /** One step of thread `i`. */
    method Step(ghost x: seq<int>, i: nat)
      requires Valid(x)
      modifies this, range, buffer, bar
      ensures Valid(x) && Current() == old(Next(Current(), i))
    {
      NextKeepsInv(x, Current(), i);
      if i < |kernels| && !bar.pcs[i].Gone? {
        if bar.pcs[i].Out? {
          KernelStepOf(x, i);
        } else {
          BarrierStepOf(x, i);
        }
      }
    }
  }

  lemma {:induction false} ShortResult(x: seq<int>)
    requires |x| <= 1
    ensures Result(x) == x
  {
    if |x| == 1 {
      ResultIsPartialSum(x, 0);
      assert Sum(x, 0, 1) == Sum(x, 0, 0) + x[0];
    }
  }

  lemma {:induction false} ExecAppend(s: State, schedule: seq<nat>, i: nat)
    requires Shaped(s)
    ensures Exec(s, schedule + [i]) == Next(Exec(s, schedule), i)
    decreases schedule
  {
    if schedule == [] {
      NextShaped(s, i);
      assert Exec(Next(s, i), []) == Next(s, i);
    } else {
      NextShaped(s, schedule[0]);
      assert (schedule + [i])[1..] == schedule[1..] + [i];
      ExecAppend(Next(s, schedule[0]), schedule[1..], i);
    }
  }

  /** The whole call under a given schedule. If the schedule lets all threads finish, the result
      does not depend on it. */
  method ParallelPartialSumPairwise(range: array<int>, schedule: seq<nat>) returns (finished: bool)
    requires range.Length <= 0x8000_0000
    modifies range
    ensures finished <==> range.Length <= 1 || AllFinished(Exec(Init(old(range[..])), schedule))
    ensures finished ==> range[..] == Result(old(range[..]))
  {
    ghost var x := range[..];
    if range.Length <= 1 {
      ShortResult(x);
      return true;
    }
    var threads := new Threads(range);
    for n := 0 to |schedule|
      invariant threads.range == range && fresh(threads) && fresh(threads.buffer) && fresh(threads.bar)
      invariant threads.Valid(x) && threads.Current() == Exec(Init(x), schedule[..n])
    {
      ExecAppend(Init(x), schedule[..n], schedule[n]);
      assert schedule[..n + 1] == schedule[..n] + [schedule[n]];
      threads.Step(x, schedule[n]);
    }
    assert schedule[..|schedule|] == schedule;
    finished := forall i | 0 <= i < |threads.bar.pcs| :: threads.bar.pcs[i].Gone?;
    ghost var s := threads.Current();
    assert forall i :: 0 <= i < |s.kernels| ==> (Finished(s, i) <==> threads.bar.pcs[i].Gone?);
    if finished {
      ScheduleIndependent(x, schedule);
    }
  }
}
