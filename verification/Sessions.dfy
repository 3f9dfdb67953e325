/**
 * What the customer and the bank see of the cash machine: the bank decides in the order of the
 * requests, nothing is asked of it before the right PIN, and the machine shows what it has been told.
 */
module Sessions {
  import opened Messaging
  import opened Options
  import Runs

  // ---------- the bank decides in order ----------

  /** The numbers of the requests that the bank has not answered, in the order in which they come to it. */
  function Undone(s: System): seq<nat> {
    InHand(s.bank.pc) + RequestsIn(s.bankQueue) + RequestsOut(s.atm.outbox)
  }

  /** The number of requests that the bank has answered. */
  function Answered(s: System): int {
    |s.requests| - |Undone(s)|
  }

  /** What is left on the account when the withdrawals accepted among the first `i` requests are booked. */
  function Left(requests: seq<Request>, i: nat): int
    requires i <= |requests|
  {
    OPENING_BALANCE - Total(requests[..i], Accepts)
  }

  /** The first `f` requests are decided, each withdrawal by what is left after those before it. */
  predicate DecidedUpTo(requests: seq<Request>, f: int) {
    && 0 <= f <= |requests|
    && (forall i :: 0 <= i < |requests| && requests[i].WithdrawRequest? ==>
          (requests[i].verdict == Pending <==> i >= f))
    && (forall i :: 0 <= i < f && requests[i].WithdrawRequest? ==>
          (requests[i].verdict == Accepted <==> requests[i].amount <= Left(requests, i)))
  }

  predicate InSequence(ids: seq<nat>, n: nat) {
    |ids| <= n && forall k :: 0 <= k < |ids| ==> ids[k] == n - |ids| + k
  }

  /** A balance in a reply is what was left when its request was made. */
  predicate BalanceOk(requests: seq<Request>, f: int, m: AtmMsg) {
    m.BalanceIs? ==> m.id < f <= |requests| && m.amount == Left(requests, m.id)
  }

  predicate Ordered(s: System) {
    && InSequence(Undone(s), |s.requests|) && DecidedUpTo(s.requests, Answered(s))
    && forall i :: 0 <= i < |s.atmQueue| ==> BalanceOk(s.requests, Answered(s), s.atmQueue[i])
  }

  lemma {:induction false} TotalAgrees(before: seq<Request>, after: seq<Request>)
    requires |before| == |after| && forall i :: 0 <= i < |before| ==> Agree(before[i], after[i])
    ensures Total(after, Accepts) == Total(before, Accepts)
    decreases |before|
  {
    if before != [] {
      TotalAgrees(before[..|before| - 1], after[..|after| - 1]);
    }
  }

  lemma {:induction false} LeftAgrees(before: seq<Request>, after: seq<Request>, i: nat)
    requires i <= |before| <= |after| && forall j :: 0 <= j < i ==> Agree(before[j], after[j])
    ensures Left(after, i) == Left(before, i)
  {
    TotalAgrees(before[..i], after[..i]);
  }

  /** More requests come, and those there are marked as paid or cancelled. */
  lemma {:induction false} ExtendedDecided(before: seq<Request>, after: seq<Request>, f: int)
    requires DecidedUpTo(before, f) && Extends(before, after)
    requires forall i :: |before| <= i < |after| && after[i].WithdrawRequest? ==> after[i].verdict == Pending
    ensures DecidedUpTo(after, f)
    ensures forall m :: BalanceOk(before, f, m) ==> BalanceOk(after, f, m)
  {
    hide Left;
    forall i: nat | i <= f ensures Left(after, i) == Left(before, i) {
      LeftAgrees(before, after, i);
    }
  }

  /** Nothing is accepted from the first undecided request on. */
  lemma {:induction false} LeftIsBalance(requests: seq<Request>, f: nat)
    requires DecidedUpTo(requests, f)
    ensures Left(requests, f) == OPENING_BALANCE - Total(requests, Accepts)
  {
    NothingAccepted(requests, f);
  }

  lemma {:induction false} NothingAccepted(requests: seq<Request>, f: nat)
    requires f <= |requests| && forall i :: f <= i < |requests| ==> !Accepts(requests[i])
    ensures Total(requests[..f], Accepts) == Total(requests, Accepts)
    decreases |requests|
  {
    if f == |requests| {
      assert requests[..f] == requests;
    } else {
      var n := |requests| - 1;
      NothingAccepted(requests[..n], f);
      assert requests[..n][..f] == requests[..f];
    }
  }

  /** The bank decides the first undecided request. */
  lemma {:induction false} VerdictDecides(requests: seq<Request>, f: nat, v: Verdict)
    requires DecidedUpTo(requests, f) && f < |requests| && requests[f].WithdrawRequest? && v != Pending
    requires v == Accepted <==> requests[f].amount <= Left(requests, f)
    ensures DecidedUpTo(SetVerdict(requests, f, v), f + 1)
    ensures forall m :: BalanceOk(requests, f, m) ==> BalanceOk(SetVerdict(requests, f, v), f + 1, m)
  {
    var after := SetVerdict(requests, f, v);
    hide Left;
    forall i: nat | i <= f ensures Left(after, i) == Left(requests, i) {
      LeftAgrees(requests, after, i);
    }
  }

  lemma {:induction false} OtherDecides(requests: seq<Request>, f: nat)
    requires DecidedUpTo(requests, f) && f < |requests| && !requests[f].WithdrawRequest?
    ensures DecidedUpTo(requests, f + 1)
    ensures forall m :: BalanceOk(requests, f, m) ==> BalanceOk(requests, f + 1, m)
  {
  }

  lemma {:induction false} UndoneKept(s: System, step: Step)
    requires !(step.AtmRuns? && Waits(s)) && !(step.BankRuns? && s.bank.pc.Handling?)
    ensures Undone(Next(s, step)) == Undone(s) && Next(s, step).requests == s.requests
  {
    hide RequestsIn, RequestsOut, Enter;
    match step
    case Press(_) =>
    case SwitchOffBank => RequestsAppend(s.bankQueue, CloseBank);
    case AtmRuns =>
      if !s.atm.closed && s.atm.outbox != [] {
        SendMovesOne(s);
        RegroupSend(InHand(s.bank.pc), RequestsIn(s.bankQueue), OutOf(s.atm.outbox[0]), RequestsOut(s.atm.outbox[1..]));
      } else if !s.atm.closed && !s.atm.entered {
        EnterMakesNoRequest(s.atm);
        RequestsOutSmall(ToUi(EjectCard), ToUi(EjectCard));
      }
    case BankRuns => BankPopKeepsUndone(s);
  }

  lemma {:induction false} BankPopKeepsUndone(s: System)
    requires !s.bank.pc.Handling?
    ensures Undone(BankNext(s)) == Undone(s) && BankNext(s).requests == s.requests
  {
    hide RequestsOut, Answer;
    var none: seq<nat> := [];
    assert s.bankQueue != [] ==> none + RequestsIn(s.bankQueue) == RequestsIn(s.bankQueue);
  }

  lemma {:induction false} SequenceGrows(ids: seq<nat>, n: nat)
    requires InSequence(ids, n)
    ensures InSequence(ids + [n], n + 1)
  {
  }

  lemma {:induction false} SequenceShrinks(id: nat, rest: seq<nat>, n: nat)
    requires InSequence([id] + rest, n)
    ensures id == n - |rest| - 1 && InSequence(rest, n)
  {
    assert ([id] + rest)[0] == id;
    forall k | 0 <= k < |rest| ensures rest[k] == n - |rest| + k {
      assert ([id] + rest)[k + 1] == rest[k];
    }
  }

  lemma {:induction false} NewRequestIsPending(atm: Atm, requests: seq<Request>, msg: AtmMsg)
    ensures var after := Record(atm, requests, msg);
      && |after| <= |requests| + 1
      && forall i :: |requests| <= i < |after| && after[i].WithdrawRequest? ==> after[i].verdict == Pending
    ensures NewRequest(atm.state, msg, |requests|) in {[], [|requests|]}
  {
  }

  lemma {:induction false} DispatchUndone(s: System)
    requires Waits(s)
    ensures Undone(Dispatch(s)) == Undone(s) + NewRequest(s.atm.state, s.atmQueue[0], |s.requests|)
    ensures Dispatch(s).atmQueue == s.atmQueue[1..]
  {
    hide RequestsIn, InHand, NewRequest, Record, Handle;
    DispatchParts(s);
    RequestsOutSmall(ToUi(EjectCard), ToUi(EjectCard));
    RegroupHead([], [], InHand(s.bank.pc), RequestsIn(s.bankQueue),
      NewRequest(s.atm.state, s.atmQueue[0], |s.requests|));
    assert Undone(s) == InHand(s.bank.pc) + RequestsIn(s.bankQueue);
  }

  /** The requests after the machine has taken a message. */
  lemma {:induction false} DispatchRecord(s: System)
    requires Waits(s)
    ensures Extends(s.requests, Dispatch(s).requests)
    ensures |Dispatch(s).requests| == |s.requests| + |NewRequest(s.atm.state, s.atmQueue[0], |s.requests|)|
    ensures forall i :: |s.requests| <= i < |Dispatch(s).requests| && Dispatch(s).requests[i].WithdrawRequest? ==>
      Dispatch(s).requests[i].verdict == Pending
  {
    hide Record, NewRequest, Handle;
    DispatchParts(s);
    HandleRequests(s.atm, s.atmQueue[0], |s.requests|);
    RecordExtends(s.atm, s.requests, s.atmQueue[0]);
    NewRequestIsPending(s.atm, s.requests, s.atmQueue[0]);
  }

  lemma {:induction false} DispatchKeepsOrdered(s: System)
    requires Ordered(s) && Waits(s)
    ensures Ordered(Dispatch(s))
  {
    hide Dispatch, Undone, DecidedUpTo, BalanceOk, Extends, NewRequest;
    DispatchUndone(s);
    DispatchRecord(s);
    NewRequestIsPending(s.atm, s.requests, s.atmQueue[0]);
    if NewRequest(s.atm.state, s.atmQueue[0], |s.requests|) != [] {
      SequenceGrows(Undone(s), |s.requests|);
    } else {
      assert Undone(s) + [] == Undone(s);
    }
    ExtendedDecided(s.requests, Dispatch(s).requests, Answered(s));
  }

  lemma {:induction false} AnswerUndone(s: System)
    requires s.bank.pc.Handling?
    ensures Undone(s) == InHand(s.bank.pc) + Undone(Answer(s))
  {
    hide Answer, InHand, RequestsIn, RequestsOut;
    AnswerMovesOne(s);
    NothingInHand(InHand(s.bank.pc), RequestsIn(s.bankQueue), RequestsOut(s.atm.outbox));
  }

  lemma {:induction false} NothingInHand(a: seq<nat>, b: seq<nat>, c: seq<nat>)
    ensures a + b + c == a + ([] + b + c)
  {
  }

  /** The bank has one reply for each request, and with it the balance left before that request. */
  lemma {:induction false} AnswerReplies(s: System)
    requires s.bank.pc.Handling?
    ensures var queue := Answer(s).atmQueue;
      || queue == s.atmQueue
      || (|queue| == |s.atmQueue| + 1 && queue[..|s.atmQueue|] == s.atmQueue &&
          var m := queue[|s.atmQueue|];
          (m.BalanceIs? ==> InHand(s.bank.pc) == [m.id] && m.amount == s.bank.balance))
  {
  }

  lemma {:induction false} AnswerDecides(s: System, f: nat)
    requires Base(s) && DecidedUpTo(s.requests, f) && s.bank.pc.Handling? && InHand(s.bank.pc) == [f]
    ensures |Answer(s).requests| == |s.requests| && DecidedUpTo(Answer(s).requests, f + 1)
    ensures forall m :: BalanceOk(s.requests, f, m) ==> BalanceOk(Answer(s).requests, f + 1, m)
    ensures Left(s.requests, f) == s.bank.balance
    ensures Left(Answer(s).requests, f) == s.bank.balance
  {
    hide Increasing, LastRequestOk, Total, Left, Outstanding;
    LeftIsBalance(s.requests, f);
    LeftAgrees(s.requests, s.requests, f);
    match s.bank.pc.msg
    case Withdraw(id, _, amount) =>
      var v := if s.bank.balance >= amount then Accepted else Denied;
      hide DecidedUpTo, BalanceOk;
      VerdictDecides(s.requests, f, v);
      LeftAgrees(s.requests, SetVerdict(s.requests, f, v), f);
    case _ =>
      hide DecidedUpTo, BalanceOk;
      OtherDecides(s.requests, f);
  }

  lemma {:induction false} AnswerKeepsOrdered(s: System)
    requires Base(s) && Ordered(s) && s.bank.pc.Handling?
    ensures Ordered(Answer(s))
  {
    hide Base, Answer, Undone, DecidedUpTo, Left;
    var s' := Answer(s);
    AnswerUndone(s);
    AnswerReplies(s);
    if InHand(s.bank.pc) == [] {
      NothingAnswered(s);
    } else {
      var f := InHand(s.bank.pc)[0];
      SequenceShrinks(f, Undone(s'), |s.requests|);
      AnswerDecides(s, f);
    }
  }

  lemma {:induction false} NothingAnswered(s: System)
    requires s.bank.pc.Handling? && InHand(s.bank.pc) == []
    ensures Answer(s).requests == s.requests && Answer(s).atmQueue == s.atmQueue
    ensures InHand(s.bank.pc) + Undone(Answer(s)) == Undone(Answer(s))
  {
  }

  lemma {:induction false} NextKeepsOrdered(s: System, step: Step)
    requires Base(s) && Ordered(s)
    ensures Ordered(Next(s, step))
  {
    hide Base, Dispatch, Answer, Undone, DecidedUpTo, BalanceOk, InSequence, Enter, SendFirst;
    if step.AtmRuns? && Waits(s) {
      DispatchKeepsOrdered(s);
    } else if step.BankRuns? && s.bank.pc.Handling? {
      if !s.bank.closed {
        AnswerKeepsOrdered(s);
      }
    } else {
      UndoneKept(s, step);
      QueueKept(s, step);
    }
  }

  lemma {:induction false} QueueKept(s: System, step: Step)
    requires !(step.AtmRuns? && Waits(s)) && !(step.BankRuns? && s.bank.pc.Handling?)
    ensures forall i :: 0 <= i < |Next(s, step).atmQueue| && Next(s, step).atmQueue[i].BalanceIs? ==>
      Next(s, step).atmQueue[i] in s.atmQueue
    ensures forall f: int, m: AtmMsg :: !m.BalanceIs? ==> BalanceOk(s.requests, f, m)
  {
    hide Left;
  }

  // ---------- nothing without the right PIN ----------

  /** The customer has been let in. */
  predicate PastPin(state: AtmState) {
    || state.WaitForAction? || state.GettingAmount? || state.ProcessWithdrawal? || state.ProcessBalance?
    || state.ContinueProcessing?
  }

  predicate RightPinAt(requests: seq<Request>, i: nat) {
    i < |requests| && requests[i] == PinRequest(RIGHT_PIN)
  }

  predicate NoPinAfter(requests: seq<Request>, i: nat) {
    forall j :: i < j < |requests| ==> !requests[j].PinRequest?
  }

  ghost predicate RightPinBefore(requests: seq<Request>, j: nat) {
    exists i: nat :: i < j && RightPinAt(requests, i)
  }

  /** The last PIN asked about is the right one. */
  ghost predicate LastPinIsRight(requests: seq<Request>) {
    exists i: nat :: RightPinAt(requests, i) && NoPinAfter(requests, i)
  }

  ghost predicate Admitted(s: System) {
    && (PastPin(s.atm.state) ==> RightPinBefore(s.requests, |s.requests|))
    && (forall j :: 0 <= j < |s.requests| && !s.requests[j].PinRequest? ==> RightPinBefore(s.requests, j))
    && (PastPin(s.atm.state) && !s.overlapped ==> LastPinIsRight(s.requests))
  }

  /** The requests keep their PINs. */
  predicate SamePins(before: seq<Request>, after: seq<Request>) {
    && |before| <= |after|
    && forall i :: 0 <= i < |before| ==>
         before[i].PinRequest? == after[i].PinRequest? && (before[i].PinRequest? ==> before[i] == after[i])
  }

  lemma {:induction false} BeforeKept(before: seq<Request>, after: seq<Request>, j: nat)
    requires SamePins(before, after) && RightPinBefore(before, j)
    ensures RightPinBefore(after, j)
  {
    var i: nat :| i < j && RightPinAt(before, i);
    assert RightPinAt(after, i);
  }

  lemma {:induction false} LastKept(before: seq<Request>, after: seq<Request>)
    requires SamePins(before, after) && LastPinIsRight(before)
    requires forall j :: |before| <= j < |after| ==> !after[j].PinRequest?
    ensures LastPinIsRight(after)
  {
    var i: nat :| RightPinAt(before, i) && NoPinAfter(before, i);
    assert RightPinAt(after, i) && NoPinAfter(after, i);
  }

  lemma {:induction false} BeforeLater(requests: seq<Request>, j: nat, k: nat)
    requires RightPinBefore(requests, j) && j <= k
    ensures RightPinBefore(requests, k)
  {
  }

  /** A step that makes no request and lets nobody in. */
  lemma {:induction false} AdmittedKept(s: System, s': System)
    requires Admitted(s) && SamePins(s.requests, s'.requests) && |s'.requests| == |s.requests|
    requires PastPin(s'.atm.state) ==> PastPin(s.atm.state)
    requires !s'.overlapped ==> !s.overlapped
    ensures Admitted(s')
  {
    hide RightPinBefore, LastPinIsRight, PastPin;
    forall j: nat | j <= |s.requests| && RightPinBefore(s.requests, j) ensures RightPinBefore(s'.requests, j) {
      BeforeKept(s.requests, s'.requests, j);
    }
    if LastPinIsRight(s.requests) {
      LastKept(s.requests, s'.requests);
    }
  }

  /** Only the right PIN lets the customer in, and only who is in makes other requests. */
  lemma {:induction false} HandleAdmits(atm: Atm, requests: seq<Request>, msg: AtmMsg)
    ensures var after, n := Record(atm, requests, msg), |requests|;
      && SamePins(requests, after) && |after| <= n + 1
      && match Handle(atm, msg, n)
         case None => after == requests
         case Some(atm') =>
           && (PastPin(atm'.state) ==> PastPin(atm.state) || (atm.state.VerifyingPin? && msg.PinVerified?))
           && (|after| > n ==> if after[n].PinRequest? then !PastPin(atm'.state) else PastPin(atm.state))
           && (atm.state.VerifyingPin? ==> after == requests)
  {
  }

  lemma {:induction false} VerifiedIsLast(s: System)
    requires Good(s) && Waits(s) && s.atm.state.VerifyingPin? && s.atmQueue[0].PinVerified?
    ensures RightPinBefore(s.requests, |s.requests|)
    ensures !s.overlapped ==> LastPinIsRight(s.requests)
  {
    var id := s.atmQueue[0].id;
    assert AtmMsgOk(s.requests, s.atmQueue[0]);
    assert RightPinAt(s.requests, id);
    ReplyAnswersLastIffAlone(s);
    assert !s.overlapped ==> NoPinAfter(s.requests, id);
  }

  lemma {:induction false} DispatchKeepsAdmitted(s: System)
    requires Good(s) && Admitted(s) && Waits(s)
    ensures Admitted(Dispatch(s))
  {
    hide Good, Handle, Record, RightPinBefore, LastPinIsRight, PastPin, SamePins, PinOutstanding;
    var s', msg, n := Dispatch(s), s.atmQueue[0], |s.requests|;
    HandleAdmits(s.atm, s.requests, msg);
    CloseHasNoHandler(s.atm, n);
    SamePinsSelf(s.requests);
    if s.atm.state.VerifyingPin? && msg.PinVerified? {
      VerifiedIsLast(s);
    }
    AdmittedAfter(s, s');
  }

  lemma {:induction false} SamePinsSelf(requests: seq<Request>)
    ensures SamePins(requests, requests)
  {
  }

  lemma {:induction false} AdmittedAfter(s: System, s': System)
    requires Admitted(s) && SamePins(s.requests, s'.requests) && |s'.requests| <= |s.requests| + 1
    requires !s'.overlapped ==> !s.overlapped
    requires PastPin(s'.atm.state) ==> RightPinBefore(s.requests, |s.requests|)
    requires PastPin(s'.atm.state) && !s'.overlapped ==> LastPinIsRight(s.requests)
    requires |s'.requests| > |s.requests| ==>
      if s'.requests[|s.requests|].PinRequest? then !PastPin(s'.atm.state)
      else RightPinBefore(s.requests, |s.requests|)
    ensures Admitted(s')
  {
    hide RightPinBefore, LastPinIsRight, PastPin;
    forall j: nat | j <= |s.requests| && RightPinBefore(s.requests, j) ensures RightPinBefore(s'.requests, j) {
      BeforeKept(s.requests, s'.requests, j);
    }
    if RightPinBefore(s.requests, |s.requests|) {
      BeforeLater(s'.requests, |s.requests|, |s'.requests|);
    }
    if LastPinIsRight(s.requests) && PastPin(s'.atm.state) {
      LastKept(s.requests, s'.requests);
    }
  }

  lemma {:induction false} VerdictKeepsPins(requests: seq<Request>, id: nat, v: Verdict)
    ensures SamePins(requests, SetVerdict(requests, id, v)) && |SetVerdict(requests, id, v)| == |requests|
  {
  }

  lemma {:induction false} NextKeepsAdmitted(s: System, step: Step)
    requires Good(s) && Admitted(s)
    ensures Admitted(Next(s, step))
  {
    hide Good, Admitted, Dispatch, SetVerdict, SamePins;
    SamePinsSelf(s.requests);
    if step.AtmRuns? && Waits(s) {
      DispatchKeepsAdmitted(s);
    } else {
      if step.BankRuns? && s.bank.pc.Handling? && s.bank.pc.msg.Withdraw? {
        var msg := s.bank.pc.msg;
        VerdictKeepsPins(s.requests, msg.id, if s.bank.balance >= msg.amount then Accepted else Denied);
      }
      AdmittedKept(s, Next(s, step));
    }
  }

  ghost predicate Lawful(s: System) {
    Good(s) && Ordered(s) && Admitted(s)
  }

  lemma {:induction false} NextKeepsLawful(s: System, step: Step)
    requires Lawful(s)
    ensures Lawful(Next(s, step))
  {
    hide Good, Ordered, Admitted, Next;
    GoodHasBase(s);
    NextKeepsGood(s, step);
    NextKeepsOrdered(s, step);
    NextKeepsAdmitted(s, step);
  }

  lemma {:induction false} InitIsLawful()
    ensures Lawful(INIT)
  {
    hide Good;
    InitIsGood();
    assert Undone(INIT) == [];
  }

  lemma {:induction false} RunIsLawful(steps: seq<Step>)
    ensures Lawful(Run(INIT, steps))
  {
    hide Lawful, Next;
    InitIsLawful();
    forall s, step | Lawful(s) ensures Lawful(Next(s, step)) {
      NextKeepsLawful(s, step);
    }
    Runs.RunKeeps(Next, Lawful, INIT, steps);
  }

  /** In every run the bank decides in the order of the requests: a withdrawal is accepted exactly if
      what the accepted ones before it have left covers it, and the balance in a reply is what was left
      when the request was made. */
  lemma {:induction false} BankDecidesInOrder(steps: seq<Step>)
    ensures var s := Run(INIT, steps);
      && (forall i :: 0 <= i < |s.requests| && s.requests[i].WithdrawRequest? && s.requests[i].verdict != Pending ==>
            (s.requests[i].verdict == Accepted <==> s.requests[i].amount <= Left(s.requests, i)))
      && (forall i :: 0 <= i < |s.atmQueue| && s.atmQueue[i].BalanceIs? ==>
            s.atmQueue[i].id < |s.requests| && s.atmQueue[i].amount == Left(s.requests, s.atmQueue[i].id))
  {
    hide Run, Good, Admitted, Undone, Left, InSequence;
    RunIsLawful(steps);
    var s := Run(INIT, steps);
    forall i | 0 <= i < |s.atmQueue| && s.atmQueue[i].BalanceIs?
      ensures s.atmQueue[i].id < |s.requests| && s.atmQueue[i].amount == Left(s.requests, s.atmQueue[i].id)
    {
      assert BalanceOk(s.requests, Answered(s), s.atmQueue[i]);
    }
  }

  /** In every run, the right PIN has been asked about before any withdrawal or balance is requested, and
      whoever is past the PIN got there by it; without overlapping PINs it is the last one asked about. */
  lemma {:induction false} RightPinFirst(steps: seq<Step>)
    ensures var s := Run(INIT, steps);
      && (forall j :: 0 <= j < |s.requests| && !s.requests[j].PinRequest? ==> RightPinBefore(s.requests, j))
      && (PastPin(s.atm.state) ==> RightPinBefore(s.requests, |s.requests|))
      && (PastPin(s.atm.state) && !s.overlapped ==> LastPinIsRight(s.requests))
  {
    hide Run, Good, Ordered, RightPinBefore, LastPinIsRight;
    RunIsLawful(steps);
  }

  // ---------- what is seen at the machine ----------

  /** A run with what the machine has taken and handled, and what it has sent. */
  datatype Traced = Traced(now: System, taken: seq<AtmMsg>, sent: seq<Out>)

  function TakenBy(s: System, step: Step): seq<AtmMsg> {
    if step.AtmRuns? && Waits(s) && Handle(s.atm, s.atmQueue[0], |s.requests|).Some? then [s.atmQueue[0]] else []
  }

  function SentBy(s: System, step: Step): seq<Out> {
    if step.AtmRuns? && !s.atm.closed && s.atm.outbox != [] then [s.atm.outbox[0]] else []
  }

  function Trace(r: Traced, step: Step): Traced {
    Traced(Next(r.now, step), r.taken + TakenBy(r.now, step), r.sent + SentBy(r.now, step))
  }

  const START := Traced(INIT, [], [])

  function TraceAll(steps: seq<Step>): Traced {
    Runs.Run(Trace, START, steps)
  }

  lemma {:induction false} TraceIsRun(r: Traced, steps: seq<Step>)
    ensures Runs.Run(Trace, r, steps).now == Run(r.now, steps)
    decreases |steps|
  {
    hide Next, TakenBy, SentBy;
    if steps != [] {
      TraceIsRun(Trace(r, steps[0]), steps[1..]);
    }
  }

  /** All that the machine sends, what is about to be sent included. */
  function Outputs(r: Traced): seq<Out> {
    r.sent + r.now.atm.outbox
  }

  predicate Asks(o: Out) {
    o.ToBank? && (o.request.Withdraw? || o.request.GetBalance?)
  }

  /** What may be sent after what. */
  predicate Follows(a: Out, b: Out) {
    match a
    case ToBank(request) => (
      match request
      case VerifyPin(_, _, _) => b in {ToUi(DisplayWithdrawalOptions), ToUi(DisplayPinIncorrect), ToUi(EjectCard)}
      case Withdraw(_, account, amount) =>
        b in {ToUi(IssueMoney(amount)), ToUi(DisplayInsufficientFunds), ToBank(CancelWithdrawal(account, amount))}
      case GetBalance(_, _) => b == ToUi(EjectCard) || (b.ToUi? && b.display.DisplayBalance?)
      case CancelWithdrawal(_, _) => b == ToUi(DisplayWithdrawalCancelled)
      case CloseBank => false)
    case ToUi(display) => (
      match display
      case EjectCard => b == ToUi(DisplayEnterCard)
      case DisplayEnterCard => b == ToUi(DisplayEnterPin)
      case DisplayEnterPin => b == ToUi(EjectCard) || (b.ToBank? && b.request.VerifyPin?)
      case DisplayPinIncorrect => b == ToUi(EjectCard)
      case DisplayWithdrawalOptions => b in {ToUi(DisplayWithdrawalAmount), ToUi(EjectCard)} || Asks(b)
      case DisplayWithdrawalAmount => b == ToUi(EjectCard) || (b.ToBank? && b.request.Withdraw?)
      case DisplayWithdrawalCancelled => b == ToUi(EjectCard)
      case IssueMoney(_) => b == ToUi(DisplayWithdrawalOptions)
      case DisplayInsufficientFunds => b == ToUi(DisplayWithdrawalOptions)
      case DisplayBalance(_) => b == ToUi(DisplayWithdrawalOptions))
  }

  predicate InOrder(outputs: seq<Out>) {
    && (outputs != [] ==> outputs[0] == ToUi(DisplayEnterCard))
    && forall i :: 0 <= i < |outputs| - 1 ==> Follows(outputs[i], outputs[i + 1])
  }

  /** What was sent last, in each state. */
  predicate LastFits(atm: Atm, last: Out) {
    match atm.state
    case WaitingForCard => last == if atm.entered then ToUi(DisplayEnterCard) else ToUi(EjectCard)
    case GettingPin => last == ToUi(DisplayEnterPin)
    case VerifyingPin => last.ToBank? && last.request.VerifyPin?
    case WaitForAction =>
      if atm.entered then last == ToUi(DisplayWithdrawalOptions) else Follows(last, ToUi(DisplayWithdrawalOptions))
    case GettingAmount => last == ToUi(DisplayWithdrawalAmount)
    case ProcessWithdrawal =>
      last.ToBank? && last.request.Withdraw? && last.request.amount == atm.amount && last.request.account == atm.account
    case ProcessBalance => last.ToBank? && last.request.GetBalance?
    case DoneProcessing => Follows(last, ToUi(EjectCard))
    case ContinueProcessing => Follows(last, ToUi(DisplayWithdrawalOptions))
  }

  predicate Fits(atm: Atm, outputs: seq<Out>) {
    if outputs == [] then atm.state.WaitingForCard? && !atm.entered else LastFits(atm, outputs[|outputs| - 1])
  }

  lemma {:induction false} OrderGrows(outputs: seq<Out>, o: Out)
    requires InOrder(outputs)
    requires if outputs == [] then o == ToUi(DisplayEnterCard) else Follows(outputs[|outputs| - 1], o)
    ensures InOrder(outputs + [o])
  {
    hide Follows;
  }

  lemma {:induction false} HandleInOrder(atm: Atm, msg: AtmMsg, id: nat, last: Out)
    requires LastFits(atm, last) && Handle(atm, msg, id).Some? && atm.entered
    ensures var outbox, atm' := Handle(atm, msg, id).value.outbox, Handle(atm, msg, id).value;
      && |outbox| <= 2
      && (outbox != [] ==> Follows(last, outbox[0]))
      && (|outbox| == 2 ==> Follows(outbox[0], outbox[1]))
      && LastFits(atm', if outbox == [] then last else outbox[|outbox| - 1])
  {
  }

  lemma {:induction false} EnterInOrder(atm: Atm, last: Out)
    requires LastFits(atm, last) && atm.outbox == [] && !atm.entered
    ensures var atm' := Enter(atm);
      && |atm'.outbox| <= 1
      && (atm'.outbox != [] ==> Follows(last, atm'.outbox[0]))
      && LastFits(atm', if atm'.outbox == [] then last else atm'.outbox[0])
  {
  }

  lemma {:induction false} GrowTwice(outputs: seq<Out>, more: seq<Out>, atm: Atm, atm': Atm)
    requires InOrder(outputs) && outputs != [] && |more| <= 2
    requires more != [] ==> Follows(outputs[|outputs| - 1], more[0])
    requires |more| == 2 ==> Follows(more[0], more[1])
    requires LastFits(atm', if more == [] then outputs[|outputs| - 1] else more[|more| - 1])
    ensures InOrder(outputs + more) && Fits(atm', outputs + more)
  {
    hide Follows, LastFits, InOrder;
    if more == [] {
      assert outputs + more == outputs;
    } else if |more| == 1 {
      OrderGrows(outputs, more[0]);
      assert outputs + more == outputs + [more[0]];
    } else {
      OrderGrows(outputs, more[0]);
      OrderGrows(outputs + [more[0]], more[1]);
      assert outputs + more == outputs + [more[0]] + [more[1]];
    }
  }

  // ---------- what the machine has been told ----------

  datatype News = Refused | Paying | Short | Balance(amount: nat)

  function NewsOf(m: AtmMsg): seq<News> {
    match m
    case PinIncorrect(_) => [Refused]
    case WithdrawOk(_) => [Paying]
    case WithdrawDenied(_) => [Short]
    case BalanceIs(_, amount) => [Balance(amount)]
    case _ => []
  }

  function NewsShown(o: Out): seq<News> {
    if o.ToBank? then []
    else
      match o.display
      case DisplayPinIncorrect => [Refused]
      case IssueMoney(_) => [Paying]
      case DisplayInsufficientFunds => [Short]
      case DisplayBalance(amount) => [Balance(amount)]
      case _ => []
  }

  function AllTold(taken: seq<AtmMsg>): seq<News> {
    if taken == [] then [] else AllTold(taken[..|taken| - 1]) + NewsOf(taken[|taken| - 1])
  }

  function AllShown(outputs: seq<Out>): seq<News> {
    if outputs == [] then [] else AllShown(outputs[..|outputs| - 1]) + NewsShown(outputs[|outputs| - 1])
  }

  lemma {:induction false} ShownMore(outputs: seq<Out>, o: Out)
    ensures AllShown(outputs + [o]) == AllShown(outputs) + NewsShown(o)
  {
    assert (outputs + [o])[..|outputs|] == outputs;
  }

  lemma {:induction false} ShownTwice(outputs: seq<Out>, more: seq<Out>)
    requires |more| <= 2
    ensures AllShown(outputs + more) ==
      AllShown(outputs) + (if |more| > 0 then NewsShown(more[0]) else []) +
      (if |more| > 1 then NewsShown(more[1]) else [])
  {
    hide AllShown, NewsShown;
    if more == [] {
      assert outputs + more == outputs;
    } else if |more| == 1 {
      ShownMore(outputs, more[0]);
      assert outputs + more == outputs + [more[0]];
    } else {
      ShownMore(outputs, more[0]);
      ShownMore(outputs + [more[0]], more[1]);
      assert outputs + more == outputs + [more[0]] + [more[1]];
    }
  }

  lemma {:induction false} HandleShows(atm: Atm, msg: AtmMsg, id: nat)
    requires Handle(atm, msg, id).Some?
    ensures var outbox := Handle(atm, msg, id).value.outbox;
      && |outbox| <= 2
      && (if |outbox| > 0 then NewsShown(outbox[0]) else []) + (if |outbox| > 1 then NewsShown(outbox[1]) else []) ==
         NewsOf(msg)
  {
  }

  lemma {:induction false} EnterShowsNothing(atm: Atm)
    requires atm.outbox == []
    ensures |Enter(atm).outbox| <= 1 && (Enter(atm).outbox != [] ==> NewsShown(Enter(atm).outbox[0]) == [])
  {
  }

  // ---------- what has been typed ----------

  function AccountOf(taken: seq<AtmMsg>): string {
    if taken == [] then ""
    else
      var n := |taken| - 1;
      if taken[n].CardInserted? then taken[n].account else AccountOf(taken[..n])
  }

  /** Neither ok nor cancel has been pressed since the card was inserted. */
  predicate TypesPin(taken: seq<AtmMsg>) {
    taken != [] &&
    var n := |taken| - 1;
    taken[n].CardInserted? || (!taken[n].OkPressed? && !taken[n].CancelPressed? && TypesPin(taken[..n]))
  }

  /** Neither ok nor cancel has been pressed since the customer asked to enter an amount. */
  predicate TypesAmount(taken: seq<AtmMsg>) {
    taken != [] &&
    var n := |taken| - 1;
    || taken[n].WithdrawAmountProcessed?
    || (!taken[n].OkPressed? && !taken[n].CancelPressed? && TypesAmount(taken[..n]))
  }

  function AddDigit(amount: nat, digit: char): nat {
    Wrap(Wrap(amount * 10) + (digit as int - '0' as int))
  }

  function PinAfter(pin: string, typing: bool, msg: AtmMsg): string {
    match msg
    case CardInserted(_) => ""
    case DigitPressed(digit) => if typing then pin + [digit] else pin
    case ClearLastPressed => if typing && pin != "" then pin[..|pin| - 1] else pin
    case _ => pin
  }

  function AmountAfter(amount: nat, typing: bool, msg: AtmMsg): nat {
    match msg
    case WithdrawProcessed(_, chosen) => chosen
    case DigitPressed(digit) => if typing then AddDigit(amount, digit) else amount
    case ClearLastPressed => if typing then amount / 10 else amount
    case _ => amount
  }

  /** The digits typed since the card was inserted and before ok, but for those cleared. */
  function PinOf(taken: seq<AtmMsg>): string {
    if taken == [] then ""
    else
      var n := |taken| - 1;
      PinAfter(PinOf(taken[..n]), TypesPin(taken[..n]), taken[n])
  }

  /** The amount chosen, or typed after the one before. */
  function AmountOf(taken: seq<AtmMsg>): nat {
    if taken == [] then 0
    else
      var n := |taken| - 1;
      AmountAfter(AmountOf(taken[..n]), TypesAmount(taken[..n]), taken[n])
  }

  predicate BankToldRightly(taken: seq<AtmMsg>, o: Out) {
    o.ToBank? ==>
      match o.request
      case VerifyPin(_, account, pin) => account == AccountOf(taken) && pin == PinOf(taken)
      case Withdraw(_, account, amount) => account == AccountOf(taken) && amount == AmountOf(taken)
      case GetBalance(_, account) => account == AccountOf(taken)
      case CancelWithdrawal(account, amount) => account == AccountOf(taken) && amount == AmountOf(taken)
      case CloseBank => false
  }

  predicate Knows(atm: Atm, taken: seq<AtmMsg>) {
    && atm.account == AccountOf(taken) && atm.pin == PinOf(taken) && atm.amount == AmountOf(taken)
    && (atm.state.GettingPin? <==> TypesPin(taken)) && (atm.state.GettingAmount? <==> TypesAmount(taken))
    && forall i :: 0 <= i < |atm.outbox| ==> BankToldRightly(taken, atm.outbox[i])
  }

  /** What one more message tells. */
  lemma {:induction false} OneMore(taken: seq<AtmMsg>, msg: AtmMsg)
    ensures var after := taken + [msg];
      && AccountOf(after) == (if msg.CardInserted? then msg.account else AccountOf(taken))
      && PinOf(after) == PinAfter(PinOf(taken), TypesPin(taken), msg)
      && AmountOf(after) == AmountAfter(AmountOf(taken), TypesAmount(taken), msg)
      && (TypesPin(after) <==> msg.CardInserted? || (!msg.OkPressed? && !msg.CancelPressed? && TypesPin(taken)))
      && (TypesAmount(after) <==>
           msg.WithdrawAmountProcessed? || (!msg.OkPressed? && !msg.CancelPressed? && TypesAmount(taken)))
  {
    hide AddDigit;
    assert (taken + [msg])[..|taken|] == taken;
  }

  lemma {:induction false} HandleKnows(atm: Atm, msg: AtmMsg, id: nat, taken: seq<AtmMsg>)
    requires Knows(atm, taken) && Handle(atm, msg, id).Some?
    ensures Knows(Handle(atm, msg, id).value, taken + [msg])
  {
    hide Wrap, AccountOf, PinOf, AmountOf, TypesPin, TypesAmount;
    OneMore(taken, msg);
  }

  lemma {:induction false} EnterKnows(atm: Atm, taken: seq<AtmMsg>)
    requires Knows(atm, taken) && atm.outbox == []
    ensures Knows(Enter(atm), taken)
  {
  }

  // ---------- every run ----------

  predicate Watched(r: Traced) {
    && InOrder(Outputs(r)) && Fits(r.now.atm, Outputs(r))
    && AllShown(Outputs(r)) == AllTold(r.taken)
    && Knows(r.now.atm, r.taken)
  }

  /** A step at which the machine neither takes a message nor enters a state. */
  lemma {:induction false} WatchedKept(r: Traced, r': Traced)
    requires Watched(r) && r'.taken == r.taken && Outputs(r') == Outputs(r)
    requires r'.now.atm == r.now.atm.(outbox := r'.now.atm.outbox, closed := r'.now.atm.closed)
    requires forall i :: 0 <= i < |r'.now.atm.outbox| ==> r'.now.atm.outbox[i] in r.now.atm.outbox
    ensures Watched(r')
  {
    hide InOrder, AllShown, AllTold, AccountOf, PinOf, AmountOf, TypesPin, TypesAmount, BankToldRightly, Outputs;
  }

  lemma {:induction false} TakenWatched(r: Traced, r': Traced, msg: AtmMsg, id: nat)
    requires Watched(r) && r.now.atm.outbox == [] && r.now.atm.entered && Handle(r.now.atm, msg, id).Some?
    requires r'.now.atm == Handle(r.now.atm, msg, id).value && r'.taken == r.taken + [msg] && r'.sent == r.sent
    ensures Watched(r')
  {
    hide Handle, InOrder, AllShown, LastFits, NewsOf, NewsShown, Knows, Follows;
    var outputs, more := Outputs(r), r'.now.atm.outbox;
    assert outputs == r.sent && Outputs(r') == r.sent + more;
    HandleKnows(r.now.atm, msg, id, r.taken);
    HandleInOrder(r.now.atm, msg, id, outputs[|outputs| - 1]);
    GrowTwice(outputs, more, r.now.atm, r'.now.atm);
    HandleShows(r.now.atm, msg, id);
    ShownTwice(outputs, more);
    assert (r.taken + [msg])[..|r.taken|] == r.taken;
  }

  lemma {:induction false} EnteredWatched(r: Traced, r': Traced)
    requires Watched(r) && r.now.atm.outbox == [] && !r.now.atm.entered
    requires r'.now.atm == Enter(r.now.atm) && r'.taken == r.taken && r'.sent == r.sent
    ensures Watched(r')
  {
    hide InOrder, AllShown, LastFits, NewsShown, Knows, Follows, AllTold;
    var outputs, more := Outputs(r), r'.now.atm.outbox;
    assert outputs == r.sent && Outputs(r') == r.sent + more;
    EnterKnows(r.now.atm, r.taken);
    EnterShowsNothing(r.now.atm);
    ShownTwice(outputs, more);
    if outputs == [] {
      FirstOutput(r.now.atm, r'.now.atm);
    } else {
      EnterInOrder(r.now.atm, outputs[|outputs| - 1]);
      GrowTwice(outputs, more, r.now.atm, r'.now.atm);
    }
  }

  lemma {:induction false} FirstOutput(atm: Atm, atm': Atm)
    requires atm.state.WaitingForCard? && atm' == Enter(atm)
    ensures InOrder([] + atm'.outbox) && Fits(atm', [] + atm'.outbox)
  {
    var none: seq<Out> := [];
    assert none + atm'.outbox == atm'.outbox;
  }

  lemma {:induction false} AtmKeepsWatched(r: Traced)
    requires Watched(r)
    ensures Watched(Trace(r, AtmRuns))
  {
    hide Watched, Handle, Enter, Record, PinOutstanding;
    var r', s := Trace(r, AtmRuns), r.now;
    if s.atm.closed {
      SameWatched(r, r');
    } else if s.atm.outbox != [] {
      SendWatched(r, r');
    } else if !s.atm.entered {
      EnteredWatched(r, r');
    } else if s.atmQueue != [] {
      CloseHasNoHandler(s.atm, |s.requests|);
      if Handle(s.atm, s.atmQueue[0], |s.requests|).Some? {
        TakenWatched(r, r', s.atmQueue[0], |s.requests|);
      } else {
        SameWatched(r, r');
      }
    } else {
      SameWatched(r, r');
    }
  }

  lemma {:induction false} SameWatched(r: Traced, r': Traced)
    requires Watched(r) && r'.taken == r.taken && r'.sent == r.sent
    requires r'.now.atm == r.now.atm || r'.now.atm == r.now.atm.(closed := true)
    ensures Watched(r')
  {
    hide Watched;
    WatchedKept(r, r');
  }

  lemma {:induction false} SendWatched(r: Traced, r': Traced)
    requires Watched(r) && r.now.atm.outbox != [] && r'.taken == r.taken
    requires r'.sent == r.sent + [r.now.atm.outbox[0]]
    requires r'.now.atm == r.now.atm.(outbox := r.now.atm.outbox[1..])
    ensures Watched(r')
  {
    hide Watched;
    assert r.now.atm.outbox == [r.now.atm.outbox[0]] + r.now.atm.outbox[1..];
    WatchedKept(r, r');
  }

  lemma {:induction false} TraceKeepsWatched(r: Traced, step: Step)
    requires Watched(r)
    ensures Watched(Trace(r, step))
  {
    hide Watched, AtmNext, SetVerdict;
    if step.AtmRuns? {
      AtmKeepsWatched(r);
    } else {
      assert Trace(r, step).taken == r.taken && Trace(r, step).sent == r.sent;
      SameWatched(r, Trace(r, step));
    }
  }

  lemma {:induction false} TraceIsWatched(steps: seq<Step>)
    ensures Watched(TraceAll(steps)) && TraceAll(steps).now == Run(INIT, steps)
  {
    StartIsWatched();
    hide Watched, Trace, Run;
    TraceIsRun(START, steps);
    forall r, step | Watched(r) ensures Watched(Trace(r, step)) {
      TraceKeepsWatched(r, step);
    }
    Runs.RunKeeps(Trace, Watched, START, steps);
  }

  lemma {:induction false} StartIsWatched()
    ensures Watched(START)
  {
  }

  /** In every run the machine sends its messages in this order: in particular a wrong PIN is followed by
      the card's ejection, and money is issued only after a request for the same amount. */
  lemma {:induction false} OutputsInOrder(steps: seq<Step>)
    ensures InOrder(Outputs(TraceAll(steps)))
  {
    hide TraceAll, InOrder;
    TraceIsWatched(steps);
  }

  /** It shows what it has been told, each once and in that order. */
  lemma {:induction false} NewsIsShown(steps: seq<Step>)
    ensures AllShown(Outputs(TraceAll(steps))) == AllTold(TraceAll(steps).taken)
  {
    hide TraceAll, AllShown, AllTold;
    TraceIsWatched(steps);
  }

  /** What it sends to the bank is about the card that was inserted last, the PIN typed since and the
      amount chosen or typed. */
  lemma {:induction false} BankIsToldRightly(steps: seq<Step>)
    ensures var r := TraceAll(steps);
      && r.now == Run(INIT, steps)
      && forall i :: 0 <= i < |r.now.atm.outbox| ==> BankToldRightly(r.taken, r.now.atm.outbox[i])
  {
    hide TraceAll, Run, BankToldRightly;
    TraceIsWatched(steps);
  }

  // ---------- the amount typed ----------

  function Power(k: nat): nat {
    if k == 0 then 1 else 10 * Power(k - 1)
  }

  predicate IsDigit(c: char) {
    '0' <= c <= '9'
  }

  /** The number that the digits stand for. */
  function Decimal(digits: string): int
    requires forall i :: 0 <= i < |digits| ==> IsDigit(digits[i])
  {
    if digits == [] then 0 else (digits[0] as int - '0' as int) * Power(|digits| - 1) + Decimal(digits[1..])
  }

  function Keys(digits: string): seq<AtmMsg> {
    seq(|digits|, i requires 0 <= i < |digits| => DigitPressed(digits[i]))
  }

  lemma {:induction false} DecimalEnd(digits: string, d: char)
    requires forall i :: 0 <= i < |digits| ==> IsDigit(digits[i])
    requires IsDigit(d)
    ensures Decimal(digits + [d]) == 10 * Decimal(digits) + (d as int - '0' as int)
    decreases |digits|
  {
    if digits == [] {
      assert (digits + [d])[1..] == [];
      assert Power(0) == 1;
    } else {
      var first, rest := digits[0] as int - '0' as int, digits[1..];
      assert (digits + [d])[1..] == rest + [d];
      DecimalEnd(rest, d);
      TenTimes(first, Power(|digits| - 1));
    }
  }

  lemma {:induction false} TenTimes(a: int, b: int)
    ensures a * (10 * b) == 10 * (a * b)
  {
  }

  /** A number and then decimals behind it, and one more of them. */
  lemma {:induction false} OneMoreDigit(a: int, power: int, decimals: int, d: int)
    ensures 10 * (a * power + decimals) + d == a * (10 * power) + (10 * decimals + d)
  {
    TenTimes(a, power);
  }

  lemma {:induction false} WrapDigit(x: int, digit: int)
    ensures Wrap(Wrap(Wrap(x) * 10) + digit) == Wrap(10 * x + digit)
  {
  }

  /** Digits are put behind the amount there was, which nothing sets back to zero. */
  lemma {:induction false} DigitsAreAppended(taken: seq<AtmMsg>, digits: string)
    requires TypesAmount(taken) && AmountOf(taken) < 0x1_0000_0000
    requires forall i :: 0 <= i < |digits| ==> IsDigit(digits[i])
    ensures TypesAmount(taken + Keys(digits))
    ensures AmountOf(taken + Keys(digits)) == Wrap(AmountOf(taken) * Power(|digits|) + Decimal(digits))
    decreases |digits|
  {
    hide AmountOf, TypesAmount, Wrap, Power, Decimal;
    if digits == [] {
      assert taken + Keys(digits) == taken;
      NoDigits(AmountOf(taken));
    } else {
      var n := |digits| - 1;
      var before, d := digits[..n], digits[n];
      DigitsAreAppended(taken, before);
      KeysEnd(before, d);
      assert before + [d] == digits;
      assert taken + Keys(digits) == taken + Keys(before) + [DigitPressed(d)];
      OneMore(taken + Keys(before), DigitPressed(d));
      LastDigit(AmountOf(taken), before, d);
    }
  }

  lemma {:induction false} NoDigits(amount: nat)
    requires amount < 0x1_0000_0000
    ensures Wrap(amount * Power(0) + Decimal("")) == amount
  {
  }

  lemma {:induction false} KeysEnd(digits: string, d: char)
    ensures Keys(digits + [d]) == Keys(digits) + [DigitPressed(d)]
  {
  }

  lemma {:induction false} LastDigit(amount: nat, digits: string, d: char)
    requires forall i :: 0 <= i < |digits| ==> IsDigit(digits[i])
    requires IsDigit(d)
    ensures AddDigit(Wrap(amount * Power(|digits|) + Decimal(digits)), d) ==
      Wrap(amount * Power(|digits| + 1) + Decimal(digits + [d]))
  {
    hide Wrap, Decimal;
    var value := d as int - '0' as int;
    DecimalEnd(digits, d);
    OneMoreDigit(amount, Power(|digits|), Decimal(digits), value);
    WrapDigit(amount * Power(|digits|) + Decimal(digits), value);
  }

  lemma {:induction false} WrapSame(a: int, b: int)
    ensures Wrap(a + b) == Wrap(b) <==> Wrap(a) == 0
  {
  }

  /** So the amount is the one typed exactly if what was there before has been shifted out, as when it
      was zero. */
  lemma {:induction false} AmountIsTypedIff(taken: seq<AtmMsg>, digits: string)
    requires TypesAmount(taken) && AmountOf(taken) < 0x1_0000_0000
    requires forall i :: 0 <= i < |digits| ==> IsDigit(digits[i])
    ensures AmountOf(taken + Keys(digits)) == Wrap(Decimal(digits)) <==>
      Wrap(AmountOf(taken) * Power(|digits|)) == 0
  {
    hide AmountOf, TypesAmount, Wrap;
    DigitsAreAppended(taken, digits);
    WrapSame(AmountOf(taken) * Power(|digits|), Decimal(digits));
  }

  /** Clearing takes back the last digit exactly if that digit did not make the amount overflow. */
  lemma {:induction false} ClearTakesBackIff(taken: seq<AtmMsg>, d: char)
    requires TypesAmount(taken) && AmountOf(taken) < 0x1_0000_0000 && IsDigit(d)
    ensures AmountOf(taken + [DigitPressed(d)] + [ClearLastPressed]) == AmountOf(taken) <==>
      AmountOf(taken) * 10 + (d as int - '0' as int) < 0x1_0000_0000
  {
    hide AmountOf, TypesAmount;
    OneMore(taken, DigitPressed(d));
    OneMore(taken + [DigitPressed(d)], ClearLastPressed);
  }
}
