/**
 * The barrier whose number of participants drops while it is in use. A participant calls `wait`
 * any number of times and `done_waiting` once; each step below is one atomic access.
 *
 * `phase` and `round` are history: how often a participant has arrived, and how often the
 * generation has been bumped. The code only has the counters, which are 32-bit and wrap.
 */
module Barrier {
  const WORD: nat := 0x1_0000_0000

  datatype Pc =
    | Out                          // outside the barrier
    | Loaded(gen: nat)             // wait: generation read, about to decrement uSpaces
    | Spinning(gen: nat)           // wait: not the last to arrive
    | Leaving                      // done_waiting: uCount decremented, about to decrement uSpaces
    | Last(leaving: bool)          // brought uSpaces to zero
    | Reload(leaving: bool, c: nat)  // uCount read
    | Bump(leaving: bool)          // uSpaces reset
    | Gone

  datatype State = State(count: nat, spaces: nat, gen: nat, pcs: seq<Pc>, phase: seq<nat>, round: nat)

  datatype Call = CallWait | CallDone | Go

  function Dec(x: nat): nat {
    (x + 0xFFFF_FFFF) % 0x1_0000_0000
  }

  function Init(n: nat): State {
    State(n, n, 0, seq(n, (i: nat) => Out), seq(n, (i: nat) => 0), 0)
  }

  predicate Enabled(s: State, i: nat, a: Call) {
    && i < |s.pcs| == |s.phase|
    && (s.pcs[i].Out? <==> !a.Go?)
    && !s.pcs[i].Gone?
  }

  /** The decrement of uSpaces: this is where a participant arrives. */
  function Arrive(s: State, i: nat, leaving: bool): State
    requires i < |s.pcs| == |s.phase|
  {
    var spaces := Dec(s.spaces);
    var pc :=
      if spaces == 0 then Last(leaving)
      else if leaving then Gone
      else if s.pcs[i].Loaded? then Spinning(s.pcs[i].gen)
      else s.pcs[i];
    s.(spaces := spaces, pcs := s.pcs[i := pc], phase := s.phase[i := s.phase[i] + 1])
  }

  function Next(s: State, i: nat, a: Call): State
    requires Enabled(s, i, a)
  {
    match s.pcs[i]
    case Out =>
      if a.CallWait? then s.(pcs := s.pcs[i := Loaded(s.gen)])
      else s.(count := Dec(s.count), pcs := s.pcs[i := Leaving])
    case Loaded(_) => Arrive(s, i, false)
    case Leaving => Arrive(s, i, true)
    case Spinning(g) => if s.gen == g then s else s.(pcs := s.pcs[i := Out])
    case Last(l) => s.(pcs := s.pcs[i := Reload(l, s.count)])
    case Reload(l, c) => s.(spaces := c, pcs := s.pcs[i := Bump(l)])
    case Bump(l) =>
      s.(gen := (s.gen + 1) % 0x1_0000_0000, round := s.round + 1, pcs := s.pcs[i := if l then Gone else Out])
    case Gone => s
  }

  // ---------- invariant ----------

  predicate Closing(pc: Pc) {
    pc.Last? || pc.Reload? || pc.Bump?
  }

  /** Still counted in uCount. */
  predicate Counted(pc: Pc) {
    !pc.Gone? && !pc.Leaving? && !(Closing(pc) && pc.leaving)
  }

  function Members(s: State): set<nat> {
    set i: nat | i < |s.pcs| && Counted(s.pcs[i])
  }

  /** Has yet to arrive in the current generation. */
  function Missing(s: State): set<nat> {
    set i: nat | i < |s.pcs| && i < |s.phase| && !s.pcs[i].Gone? && s.phase[i] == s.round
  }

  predicate PcOk(s: State, i: nat)
    requires i < |s.pcs| == |s.phase|
  {
    match s.pcs[i]
    case Out => s.phase[i] == s.round
    case Loaded(g) => s.phase[i] == s.round && g == s.gen
    case Leaving => s.phase[i] == s.round
    case Spinning(g) =>
      || (s.phase[i] == s.round + 1 && g == s.gen)
      || (s.phase[i] == s.round && (g + 1) % 0x1_0000_0000 == s.gen && g < WORD)
    case Gone => s.phase[i] <= s.round + 1
    case _ => s.phase[i] == s.round + 1
  }

  ghost predicate Inv(s: State) {
    && |s.pcs| == |s.phase| && |s.pcs| < WORD
    && s.gen == s.round % 0x1_0000_0000
    && (forall i :: 0 <= i < |s.pcs| ==> PcOk(s, i))
    && (forall i, j :: 0 <= i < |s.pcs| && 0 <= j < |s.pcs| && Closing(s.pcs[i]) && Closing(s.pcs[j]) ==> i == j)
    && s.count == |Members(s)|
    && SpacesOk(s)
  }

  /** uSpaces counts those yet to arrive, except between its reset and the next generation. */
  ghost predicate SpacesOk(s: State) {
    if exists i :: 0 <= i < |s.pcs| && Closing(s.pcs[i]) then
      && Missing(s) == {}
      && forall i :: 0 <= i < |s.pcs| && Closing(s.pcs[i]) ==>
           && (s.pcs[i].Bump? ==> s.spaces == s.count)
           && (!s.pcs[i].Bump? ==> s.spaces == 0)
           && (s.pcs[i].Reload? ==> s.pcs[i].c == s.count)
    else
      && s.spaces == |Missing(s)|
      && (Missing(s) == {} ==> forall i :: 0 <= i < |s.pcs| ==> s.pcs[i].Gone?)
  }

  function UpTo(n: nat): (r: set<nat>)
    ensures |r| == n && forall i: nat :: i in r <==> i < n
  {
    if n == 0 then {} else UpTo(n - 1) + {n - 1}
  }

  lemma {:induction false} InitSets(n: nat)
    ensures Members(Init(n)) == UpTo(n) && Missing(Init(n)) == UpTo(n)
    ensures n > 0 ==> Missing(Init(n)) != {}
  {
    var s := Init(n);
    assert Members(s) == UpTo(n);
    assert Missing(s) == UpTo(n);
  }

  lemma {:induction false} InitInv(n: nat)
    requires n < WORD
    ensures Inv(Init(n))
  {
    hide Members, Missing, UpTo;
    InitSets(n);
    assert forall i :: 0 <= i < n ==> !Closing(Init(n).pcs[i]);
  }

  lemma {:induction false} SubsetSize(a: set<nat>, b: set<nat>)
    requires a <= b
    ensures |a| <= |b|
  {
    assert b == a + (b - a);
  }

  lemma {:induction false} MissingBounded(s: State)
    ensures |Missing(s)| <= |s.pcs|
  {
    SubsetSize(Missing(s), UpTo(|s.pcs|));
  }

  lemma {:induction false} NoneClosing(s: State, i: nat)
    requires Inv(s) && i < |s.pcs| && i in Missing(s)
    ensures forall j :: 0 <= j < |s.pcs| ==> !Closing(s.pcs[j])
    ensures s.spaces == |Missing(s)|
  {
  }

  /** A call of `done_waiting` takes the participant out of uCount, one of `wait` does not. */
  lemma {:induction false} CallSets(s: State, i: nat, a: Call)
    requires |s.pcs| == |s.phase| && Enabled(s, i, a) && !a.Go?
    ensures Missing(Next(s, i, a)) == Missing(s)
    ensures i in Members(s) && |Members(s)| <= |s.pcs|
    ensures |Members(Next(s, i, a))| == |Members(s)| - if a.CallDone? then 1 else 0
  {
    var s' := Next(s, i, a);
    SubsetSize(Members(s), UpTo(|s.pcs|));
    assert Missing(s') == Missing(s);
    assert Members(s') == if a.CallDone? then Members(s) - {i} else Members(s);
  }

  lemma {:induction false} CallKeepsInv(s: State, i: nat, a: Call)
    requires Inv(s) && Enabled(s, i, a) && !a.Go?
    ensures Inv(Next(s, i, a))
  {
    hide Members, Missing;
    var s' := Next(s, i, a);
    CallSets(s, i, a);
    OutIsMissing(s, i);
    NoneClosing(s, i);
    forall j | 0 <= j < |s.pcs| ensures PcOk(s', j) {
      assert PcOk(s, j);
    }
  }

  lemma {:induction false} OutIsMissing(s: State, i: nat)
    requires Inv(s) && i < |s.pcs| && (s.pcs[i].Out? || s.pcs[i].Loaded? || s.pcs[i].Leaving?)
    ensures i in Missing(s)
  {
    assert PcOk(s, i);
  }

  lemma {:induction false} ArriveSets(s: State, i: nat, leaving: bool)
    requires |s.pcs| == |s.phase| && i < |s.pcs| && (if leaving then s.pcs[i].Leaving? else s.pcs[i].Loaded?)
    requires i in Missing(s)
    ensures |Missing(s)| <= |s.pcs| && |Missing(Arrive(s, i, leaving))| == |Missing(s)| - 1
    ensures Members(Arrive(s, i, leaving)) == Members(s)
  {
    MissingBounded(s);
    assert Missing(Arrive(s, i, leaving)) == Missing(s) - {i};
  }

  lemma {:induction false} ArriveKeepsInv(s: State, i: nat, leaving: bool)
    requires Inv(s) && i < |s.pcs| && (if leaving then s.pcs[i].Leaving? else s.pcs[i].Loaded?)
    ensures Inv(Arrive(s, i, leaving))
  {
    hide Members, Missing;
    var s' := Arrive(s, i, leaving);
    OutIsMissing(s, i);
    NoneClosing(s, i);
    ArriveSets(s, i, leaving);
    forall j | 0 <= j < |s.pcs| ensures PcOk(s', j) {
      assert PcOk(s, j);
    }
    assert s'.spaces == 0 ==> Closing(s'.pcs[i]);
  }

  lemma {:induction false} SpinKeepsInv(s: State, i: nat)
    requires Inv(s) && i < |s.pcs| && s.pcs[i].Spinning? && s.gen != s.pcs[i].gen
    ensures Inv(s.(pcs := s.pcs[i := Out]))
  {
    var s' := s.(pcs := s.pcs[i := Out]);
    assert PcOk(s, i);
    assert i in Missing(s);
    NoneClosing(s, i);
    assert Missing(s') == Missing(s);
    assert Members(s') == Members(s);
    forall j | 0 <= j < |s.pcs| ensures PcOk(s', j) {
      assert PcOk(s, j);
    }
  }

  lemma {:induction false} ReloadKeepsInv(s: State, i: nat)
    requires Inv(s) && i < |s.pcs| && (s.pcs[i].Last? || s.pcs[i].Reload?)
    ensures Inv(Next(s, i, Go))
  {
    var s' := Next(s, i, Go);
    assert PcOk(s, i);
    assert Closing(s.pcs[i]) && Closing(s'.pcs[i]);
    assert Missing(s') == Missing(s);
    assert Members(s') == Members(s);
    forall j | 0 <= j < |s.pcs| ensures PcOk(s', j) {
      assert PcOk(s, j);
    }
  }

  lemma {:induction false} BumpedPc(s: State, i: nat, j: nat)
    requires Inv(s) && i < |s.pcs| && s.pcs[i].Bump? && j < |s.pcs|
    ensures PcOk(Next(s, i, Go), j)
    ensures j in Missing(Next(s, i, Go)) <==> j in Members(s)
    ensures j in Members(Next(s, i, Go)) <==> j in Members(s)
  {
    assert PcOk(s, i) && PcOk(s, j);
    assert Closing(s.pcs[i]);
    assert j !in Missing(s);
  }

  /** Those who remain are those who have yet to arrive. */
  lemma {:induction false} BumpSets(s: State, i: nat)
    requires Inv(s) && i < |s.pcs| && s.pcs[i].Bump?
    ensures Missing(Next(s, i, Go)) == Members(Next(s, i, Go)) == Members(s)
    ensures Members(s) == {} ==> forall j :: 0 <= j < |s.pcs| ==> Next(s, i, Go).pcs[j].Gone?
  {
    var s' := Next(s, i, Go);
    forall j | 0 <= j < |s.pcs|
      ensures (j in Missing(s') <==> j in Members(s)) && (j in Members(s') <==> j in Members(s))
    {
      BumpedPc(s, i, j);
    }
    forall j | 0 <= j < |s.pcs| && Members(s) == {} ensures s'.pcs[j].Gone? {
      assert j !in Members(s');
      BumpOpens(s, i, j);
    }
  }

  lemma {:induction false} BumpOpens(s: State, i: nat, j: nat)
    requires Inv(s) && i < |s.pcs| && s.pcs[i].Bump? && j < |s.pcs|
    ensures !Closing(Next(s, i, Go).pcs[j]) && s.spaces == s.count && !Next(s, i, Go).pcs[j].Leaving?
  {
    assert PcOk(s, j) && Closing(s.pcs[i]);
    assert j !in Missing(s);
  }

  lemma {:induction false} BumpKeepsInv(s: State, i: nat)
    requires Inv(s) && i < |s.pcs| && s.pcs[i].Bump?
    ensures Inv(Next(s, i, Go))
  {
    hide Members, Missing;
    var s' := Next(s, i, Go);
    BumpSets(s, i);
    forall j | 0 <= j < |s.pcs| ensures PcOk(s', j) && !Closing(s'.pcs[j]) && s.spaces == s.count {
      BumpedPc(s, i, j);
      BumpOpens(s, i, j);
    }
  }

  lemma {:induction false} NextKeepsInv(s: State, i: nat, a: Call)
    requires Inv(s) && Enabled(s, i, a)
    ensures Inv(Next(s, i, a))
  {
    match s.pcs[i]
    case Out => CallKeepsInv(s, i, a);
    case Loaded(_) => ArriveKeepsInv(s, i, false);
    case Leaving => ArriveKeepsInv(s, i, true);
    case Spinning(g) => if s.gen != g { SpinKeepsInv(s, i); }
    case Last(_) => ReloadKeepsInv(s, i);
    case Reload(_, _) => ReloadKeepsInv(s, i);
    case Bump(_) => BumpKeepsInv(s, i);
  }

  // ---------- safety and progress ----------

  /** A participant outside the barrier that has arrived `k` times left its last generation only
      after every participant had arrived `k` times too, or had said it was done. */
  lemma {:induction false} NobodyRunsAhead(s: State, i: nat, j: nat)
    requires Inv(s) && i < |s.pcs| && j < |s.pcs| && s.pcs[i].Out?
    ensures s.phase[j] >= s.phase[i] || s.pcs[j].Gone?
  {
    assert PcOk(s, i) && PcOk(s, j);
  }

  /** A decrement never wraps, and uSpaces is the number of participants yet to arrive whenever one
      of them is about to. */
  lemma {:induction false} SpacesCountsMissing(s: State, i: nat)
    requires Inv(s) && i < |s.pcs| && (s.pcs[i].Loaded? || s.pcs[i].Leaving?)
    ensures s.spaces == |Missing(s)| >= 1 && i in Missing(s)
    ensures Dec(s.spaces) == s.spaces - 1
  {
    assert PcOk(s, i);
    assert i in Missing(s);
    NoneClosing(s, i);
    MissingBounded(s);
  }

  /** Only the read of an unchanged generation leads nowhere. */
  predicate Stutters(s: State, i: nat)
    requires i < |s.pcs|
  {
    s.pcs[i].Spinning? && s.gen == s.pcs[i].gen
  }

  /** The barrier never gets stuck: unless all are gone, one participant is outside, so that it is
      up to its owner, or has a step that is not a spin. */
  lemma {:induction false} SomeoneCanMove(s: State, k: nat) returns (i: nat)
    requires Inv(s) && k < |s.pcs| && !s.pcs[k].Gone?
    ensures i < |s.pcs| && !s.pcs[i].Gone? && !Stutters(s, i)
  {
    if j :| 0 <= j < |s.pcs| && Closing(s.pcs[j]) {
      i := j;
    } else {
      assert Missing(s) != {};
      i :| i in Missing(s);
      assert PcOk(s, i);
    }
  }

  lemma {:induction false} SameLengths(s: State)
    requires Inv(s)
    ensures |s.pcs| == |s.phase|
  {
  }

  // ---------- in place ----------

  /** The barrier object with its three counters; the participants' program counters stand for
      where each thread is inside its call. */
  class SharedBarrier {
    var uCount: nat
    var uSpaces: nat
    var uGeneration: nat
    var pcs: seq<Pc>
    ghost var phase: seq<nat>
    ghost var round: nat

    ghost function Current(): State
      reads this
    {
      State(uCount, uSpaces, uGeneration, pcs, phase, round)
    }

    constructor (n: nat)
      requires n < WORD
      ensures Current() == Init(n) && Inv(Current())
    {
      uCount, uSpaces, uGeneration := n, n, 0;
      pcs := seq(n, (i: nat) => Out);
      phase := seq(n, (i: nat) => 0);
      round := 0;
      new;
      InitInv(n);
    }

    /** One step of `wait` or `done_waiting`, or the call of one of them. */
    method Step(i: nat, a: Call)
      requires Inv(Current()) && Enabled(Current(), i, a)
      modifies this
      ensures Current() == old(Next(Current(), i, a)) && Inv(Current())
    {
      hide Inv;
      SameLengths(Current());
      NextKeepsInv(Current(), i, a);
      match pcs[i]
      case Out =>
        if a.CallWait? {
          pcs := pcs[i := Loaded(uGeneration)];
        } else {
          uCount := Dec(uCount);
          pcs := pcs[i := Leaving];
        }
      case Loaded(g) =>
        uSpaces := Dec(uSpaces);
        phase := phase[i := phase[i] + 1];
        pcs := pcs[i := if uSpaces == 0 then Last(false) else Spinning(g)];
      case Leaving =>
        uSpaces := Dec(uSpaces);
        phase := phase[i := phase[i] + 1];
        pcs := pcs[i := if uSpaces == 0 then Last(true) else Gone];
      case Spinning(g) =>
        if uGeneration != g {
          pcs := pcs[i := Out];
        }
      case Last(leaving) => pcs := pcs[i := Reload(leaving, uCount)];
      case Reload(leaving, c) =>
        uSpaces := c;
        pcs := pcs[i := Bump(leaving)];
      case Bump(leaving) =>
        uGeneration := (uGeneration + 1) % 0x1_0000_0000;
        round := round + 1;
        pcs := pcs[i := if leaving then Gone else Out];
      case Gone =>
    }
  }
}
