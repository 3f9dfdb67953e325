/**
 * The cash machine and the bank: two state machines that talk through queues and drop every
 * message for which the current state has no handler.
 *
 * Replies carry the number of the request they answer, and `requests` records what became of each
 * request. Both are history: no branch depends on them.
 */
module Messaging {
  import opened Options
  import Runs

  /** What arrives in the queue of the cash machine: keys and replies of the bank. */
  datatype AtmMsg =
    | DigitPressed(digit: char)
    | ClearLastPressed
    | OkPressed
    | CancelPressed
    | BalancePressed
    | WithdrawProcessed(account: string, amount: nat)
    | WithdrawAmountProcessed(account: string)
    | CardInserted(account: string)
    | PinVerified(id: nat)
    | PinIncorrect(id: nat)
    | WithdrawOk(id: nat)
    | WithdrawDenied(id: nat)
    | BalanceIs(id: nat, amount: nat)
    | CloseAtm

  datatype BankMsg =
    | VerifyPin(id: nat, account: string, pin: string)
    | Withdraw(id: nat, account: string, amount: nat)
    | GetBalance(id: nat, account: string)
    | CancelWithdrawal(account: string, amount: nat)
    | CloseBank

  datatype UiMsg =
    | IssueMoney(amount: nat)
    | DisplayInsufficientFunds
    | DisplayEnterPin
    | DisplayEnterCard
    | DisplayBalance(amount: nat)
    | DisplayWithdrawalOptions
    | DisplayWithdrawalAmount
    | DisplayWithdrawalCancelled
    | DisplayPinIncorrect
    | EjectCard

  datatype Out = ToBank(request: BankMsg) | ToUi(display: UiMsg)

  datatype AtmState =
    | WaitingForCard
    | GettingPin
    | VerifyingPin
    | WaitForAction
    | GettingAmount
    | ProcessWithdrawal
    | ProcessBalance
    | DoneProcessing
    | ContinueProcessing

  /** `entered` says that the messages a state sends before it waits have been sent; `outbox` holds
      the messages a handler sends, which go out one by one. `amount` is a 32-bit word. */
  datatype Atm = Atm(
    state: AtmState, entered: bool, account: string, amount: nat, pin: string, outbox: seq<Out>, closed: bool)

  datatype BankPc = Idle | Handling(msg: BankMsg) | Deducting(amount: nat)

  datatype Bank = Bank(balance: nat, pc: BankPc, closed: bool)

  datatype Verdict = Pending | Accepted | Denied

  datatype Request =
    | PinRequest(pin: string)
    | WithdrawRequest(amount: nat, verdict: Verdict, cancelled: bool, paid: bool)
    | BalanceRequest

  datatype System = System(
    atm: Atm, bank: Bank, atmQueue: seq<AtmMsg>, bankQueue: seq<BankMsg>, uiQueue: seq<UiMsg>,
    requests: seq<Request>, overlapped: bool, lateCancel: bool)

  const OPENING_BALANCE: nat := 199
  const RIGHT_PIN := "1937"

  function Wrap(x: int): (w: nat)
    ensures w < 0x1_0000_0000
  {
    x % 0x1_0000_0000
  }

  // ---------- the cash machine ----------

  function Goto(atm: Atm, state: AtmState, outbox: seq<Out>): Atm {
    atm.(state := state, entered := false, outbox := outbox)
  }

  /** The handler of the current state for `msg`, or nothing if the state has none. A new request
      gets the number `id`. */
  function Handle(atm: Atm, msg: AtmMsg, id: nat): Option<Atm> {
    match atm.state
    case WaitingForCard => (
      match msg
      case CardInserted(account) =>
        Some(Goto(atm.(account := account, pin := ""), GettingPin, [ToUi(DisplayEnterPin)]))
      case _ => None)
    case GettingPin => (
      match msg
      case DigitPressed(digit) => Some(Goto(atm.(pin := atm.pin + [digit]), GettingPin, []))
      case ClearLastPressed =>
        Some(Goto(if atm.pin == "" then atm else atm.(pin := atm.pin[..|atm.pin| - 1]), GettingPin, []))
      case OkPressed => Some(Goto(atm, VerifyingPin, [ToBank(VerifyPin(id, atm.account, atm.pin))]))
      case CancelPressed => Some(Goto(atm, DoneProcessing, []))
      case _ => None)
    case VerifyingPin => (
      match msg
      case PinVerified(_) => Some(Goto(atm, WaitForAction, []))
      case PinIncorrect(_) => Some(Goto(atm, DoneProcessing, [ToUi(DisplayPinIncorrect)]))
      case CancelPressed => Some(Goto(atm, DoneProcessing, []))
      case _ => None)
    case WaitForAction => (
      match msg
      case WithdrawAmountProcessed(_) => Some(Goto(atm, GettingAmount, [ToUi(DisplayWithdrawalAmount)]))
      case WithdrawProcessed(_, amount) =>
        Some(Goto(atm.(amount := amount), ProcessWithdrawal, [ToBank(Withdraw(id, atm.account, amount))]))
      case BalancePressed => Some(Goto(atm, ProcessBalance, [ToBank(GetBalance(id, atm.account))]))
      case CancelPressed => Some(Goto(atm, DoneProcessing, []))
      case _ => None)
    case GettingAmount => (
      match msg
      case DigitPressed(digit) =>
        Some(Goto(atm.(amount := Wrap(Wrap(atm.amount * 10) + (digit as int - '0' as int))), GettingAmount, []))
      case ClearLastPressed => Some(Goto(atm.(amount := atm.amount / 10), GettingAmount, []))
      case OkPressed => Some(Goto(atm, ProcessWithdrawal, [ToBank(Withdraw(id, atm.account, atm.amount))]))
      case CancelPressed => Some(Goto(atm, DoneProcessing, []))
      case _ => None)
    case ProcessWithdrawal => (
      match msg
      case WithdrawOk(_) => Some(Goto(atm, ContinueProcessing, [ToUi(IssueMoney(atm.amount))]))
      case WithdrawDenied(_) => Some(Goto(atm, ContinueProcessing, [ToUi(DisplayInsufficientFunds)]))
      case CancelPressed =>
        Some(Goto(atm, DoneProcessing,
          [ToBank(CancelWithdrawal(atm.account, atm.amount)), ToUi(DisplayWithdrawalCancelled)]))
      case _ => None)
    case ProcessBalance => (
      match msg
      case BalanceIs(_, amount) => Some(Goto(atm, WaitForAction, [ToUi(DisplayBalance(amount))]))
      case CancelPressed => Some(Goto(atm, DoneProcessing, []))
      case _ => None)
    case _ => None
  }

  /** What a state does before it waits for a message, or instead of waiting. */
  function Enter(atm: Atm): Atm {
    match atm.state
    case WaitingForCard => atm.(entered := true, outbox := [ToUi(DisplayEnterCard)])
    case WaitForAction => atm.(entered := true, outbox := [ToUi(DisplayWithdrawalOptions)])
    case DoneProcessing => Goto(atm, WaitingForCard, [ToUi(EjectCard)])
    case ContinueProcessing => Goto(atm, WaitForAction, [])
    case _ => atm.(entered := true)
  }

  // ---------- one step of the whole ----------

  datatype Step = Press(key: AtmMsg) | SwitchOffBank | AtmRuns | BankRuns

  predicate IsReply(msg: AtmMsg) {
    msg.PinVerified? || msg.PinIncorrect? || msg.WithdrawOk? || msg.WithdrawDenied? || msg.BalanceIs?
  }

  function SendFirst(s: System): System
    requires s.atm.outbox != []
  {
    var sent := s.(atm := s.atm.(outbox := s.atm.outbox[1..]));
    match s.atm.outbox[0]
    case ToBank(m) => sent.(bankQueue := s.bankQueue + [m])
    case ToUi(m) => sent.(uiQueue := s.uiQueue + [m])
  }

  /** What the handling of `msg` does to the record of requests: a new request is added, and the
      last one is marked when its money is issued or its withdrawal is cancelled. */
  function Record(atm: Atm, requests: seq<Request>, msg: AtmMsg): seq<Request> {
    var n := |requests|;
    match atm.state
    case GettingPin => if msg.OkPressed? then requests + [PinRequest(atm.pin)] else requests
    case WaitForAction =>
      if msg.WithdrawProcessed? then requests + [WithdrawRequest(msg.amount, Pending, false, false)]
      else if msg.BalancePressed? then requests + [BalanceRequest]
      else requests
    case GettingAmount =>
      if msg.OkPressed? then requests + [WithdrawRequest(atm.amount, Pending, false, false)] else requests
    case ProcessWithdrawal =>
      if n == 0 || !requests[n - 1].WithdrawRequest? then requests
      else if msg.WithdrawOk? then requests[n - 1 := requests[n - 1].(paid := true)]
      else if msg.CancelPressed? then requests[n - 1 := requests[n - 1].(cancelled := true)]
      else requests
    case _ => requests
  }

  /** Pops a message and dispatches it; without a handler it is gone. */
  function Dispatch(s: System): System
    requires s.atmQueue != []
  {
    var msg := s.atmQueue[0];
    var popped := s.(atmQueue := s.atmQueue[1..]);
    if msg.CloseAtm? then popped.(atm := s.atm.(closed := true))
    else
      match Handle(s.atm, msg, |s.requests|)
      case None => popped
      case Some(atm) =>
        popped.(
          atm := atm,
          requests := Record(s.atm, s.requests, msg),
          overlapped := s.overlapped || (s.atm.state.GettingPin? && msg.OkPressed? && PinOutstanding(s)),
          lateCancel := s.lateCancel || (s.atm.state.VerifyingPin? && msg.CancelPressed?))
  }

  function AtmNext(s: System): System {
    if s.atm.closed then s
    else if s.atm.outbox != [] then SendFirst(s)
    else if !s.atm.entered then s.(atm := Enter(s.atm))
    else if s.atmQueue == [] then s
    else Dispatch(s)
  }

  function SetVerdict(requests: seq<Request>, id: nat, verdict: Verdict): seq<Request> {
    if id < |requests| && requests[id].WithdrawRequest? then requests[id := requests[id].(verdict := verdict)]
    else requests
  }

  /** The bank answers before it books. */
  function Answer(s: System): System
    requires s.bank.pc.Handling?
  {
    var idle := s.bank.(pc := Idle);
    match s.bank.pc.msg
    case VerifyPin(id, _, pin) =>
      s.(bank := idle, atmQueue := s.atmQueue + [if pin == RIGHT_PIN then PinVerified(id) else PinIncorrect(id)])
    case Withdraw(id, _, amount) =>
      if s.bank.balance >= amount then
        s.(bank := s.bank.(pc := Deducting(amount)), atmQueue := s.atmQueue + [WithdrawOk(id)],
           requests := SetVerdict(s.requests, id, Accepted))
      else
        s.(bank := idle, atmQueue := s.atmQueue + [WithdrawDenied(id)],
           requests := SetVerdict(s.requests, id, Denied))
    case GetBalance(id, _) => s.(bank := idle, atmQueue := s.atmQueue + [BalanceIs(id, s.bank.balance)])
    case CancelWithdrawal(_, _) => s.(bank := idle)
    case CloseBank => s.(bank := idle.(closed := true))
  }

  function BankNext(s: System): System {
    if s.bank.closed then s
    else
      match s.bank.pc
      case Idle =>
        if s.bankQueue == [] then s
        else s.(bank := s.bank.(pc := Handling(s.bankQueue[0])), bankQueue := s.bankQueue[1..])
      case Handling(_) => Answer(s)
      case Deducting(amount) =>
        s.(bank := s.bank.(balance := Wrap(s.bank.balance - amount), pc := Idle))
  }

  function Next(s: System, step: Step): System {
    match step
    case Press(key) => if IsReply(key) then s else s.(atmQueue := s.atmQueue + [key])
    case SwitchOffBank => s.(bankQueue := s.bankQueue + [CloseBank])
    case AtmRuns => AtmNext(s)
    case BankRuns => BankNext(s)
  }

  const INIT := System(
    Atm(WaitingForCard, false, "", 0, "", [], false), Bank(OPENING_BALANCE, Idle, false), [], [], [], [], false, false)

  function Run(s: System, steps: seq<Step>): System {
    Runs.Run(Next, s, steps)
  }

  // ---------- outstanding requests ----------

  function ReplyOf(m: AtmMsg): seq<nat> {
    if IsReply(m) then [m.id] else []
  }

  function RepliesIn(q: seq<AtmMsg>): seq<nat> {
    if q == [] then [] else ReplyOf(q[0]) + RepliesIn(q[1..])
  }

  predicate IsRequest(m: BankMsg) {
    m.VerifyPin? || m.Withdraw? || m.GetBalance?
  }

  function RequestOf(m: BankMsg): seq<nat> {
    if IsRequest(m) then [m.id] else []
  }

  function RequestsIn(q: seq<BankMsg>): seq<nat> {
    if q == [] then [] else RequestOf(q[0]) + RequestsIn(q[1..])
  }

  function RequestsOut(outbox: seq<Out>): seq<nat> {
    if outbox == [] then []
    else (if outbox[0].ToBank? then RequestOf(outbox[0].request) else []) + RequestsOut(outbox[1..])
  }

  function InHand(pc: BankPc): seq<nat> {
    if pc.Handling? then RequestOf(pc.msg) else []
  }

  /** The numbers of the requests whose reply the cash machine has not taken out of its queue, in
      the order in which the replies will come: first the replies already there, then the request
      the bank has in hand, those in the bank's queue and the one about to be sent. */
  function Outstanding(s: System): seq<nat> {
    RepliesIn(s.atmQueue) + InHand(s.bank.pc) + RequestsIn(s.bankQueue) + RequestsOut(s.atm.outbox)
  }

  predicate PinOutstanding(s: System) {
    var o := Outstanding(s);
    exists i :: 0 <= i < |o| && o[i] < |s.requests| && s.requests[o[i]].PinRequest?
  }

  lemma {:induction false} RepliesAppend(q: seq<AtmMsg>, m: AtmMsg)
    ensures RepliesIn(q + [m]) == RepliesIn(q) + ReplyOf(m)
    decreases |q|
  {
    if q == [] {
      assert RepliesIn([m]) == ReplyOf(m) + RepliesIn([m][1..]);
    } else {
      var first, rest := q[0], q[1..];
      RepliesAppend(rest, m);
      assert (q + [m])[0] == first && (q + [m])[1..] == rest + [m];
      Associate(ReplyOf(first), RepliesIn(rest), ReplyOf(m));
    }
  }

  lemma {:induction false} RequestsAppend(q: seq<BankMsg>, m: BankMsg)
    ensures RequestsIn(q + [m]) == RequestsIn(q) + RequestOf(m)
    decreases |q|
  {
    if q == [] {
      assert RequestsIn([m]) == RequestOf(m) + RequestsIn([m][1..]);
    } else {
      var first, rest := q[0], q[1..];
      RequestsAppend(rest, m);
      assert (q + [m])[0] == first && (q + [m])[1..] == rest + [m];
      Associate(RequestOf(first), RequestsIn(rest), RequestOf(m));
    }
  }

  lemma {:induction false} Associate(a: seq<nat>, b: seq<nat>, c: seq<nat>)
    ensures a + (b + c) == (a + b) + c
  {
  }

  predicate Waits(s: System) {
    !s.atm.closed && s.atm.outbox == [] && s.atm.entered && s.atmQueue != []
  }

  function OutOf(m: Out): seq<nat> {
    if m.ToBank? then RequestOf(m.request) else []
  }

  lemma {:induction false} SendMovesOne(s: System)
    requires s.atm.outbox != []
    ensures var s' := SendFirst(s);
      && s'.atmQueue == s.atmQueue && s'.bank == s.bank
      && RequestsIn(s'.bankQueue) == RequestsIn(s.bankQueue) + OutOf(s.atm.outbox[0])
      && RequestsOut(s.atm.outbox) == OutOf(s.atm.outbox[0]) + RequestsOut(s'.atm.outbox)
  {
    var m := s.atm.outbox[0];
    if m.ToBank? {
      RequestsAppend(s.bankQueue, m.request);
    }
  }

  lemma {:induction false} SendKeepsOutstanding(s: System)
    requires s.atm.outbox != []
    ensures Outstanding(SendFirst(s)) == Outstanding(s)
  {
    SendMovesOne(s);
    var a := RepliesIn(s.atmQueue) + InHand(s.bank.pc);
    RegroupSend(a, RequestsIn(s.bankQueue), OutOf(s.atm.outbox[0]), RequestsOut(s.atm.outbox[1..]));
  }

  lemma {:induction false} RegroupSend(a: seq<nat>, c: seq<nat>, r: seq<nat>, d: seq<nat>)
    ensures a + (c + r) + d == a + c + (r + d)
  {
  }

  lemma {:induction false} EnterMakesNoRequest(atm: Atm)
    requires atm.outbox == []
    ensures RequestsOut(Enter(atm).outbox) == []
  {
    var outbox := Enter(atm).outbox;
    if outbox == [] {
      RequestsOutSmall(ToUi(EjectCard), ToUi(EjectCard));
    } else {
      assert outbox == [outbox[0]] && outbox[0].ToUi?;
      RequestsOutSmall(outbox[0], outbox[0]);
    }
  }

  lemma {:induction false} AnswerMovesOne(s: System)
    requires s.bank.pc.Handling?
    ensures var s' := Answer(s);
      && RepliesIn(s'.atmQueue) == RepliesIn(s.atmQueue) + InHand(s.bank.pc)
      && InHand(s'.bank.pc) == [] && s'.bankQueue == s.bankQueue && s'.atm == s.atm
  {
    match s.bank.pc.msg
    case VerifyPin(id, _, pin) =>
      RepliesAppend(s.atmQueue, if pin == RIGHT_PIN then PinVerified(id) else PinIncorrect(id));
    case Withdraw(id, _, amount) =>
      RepliesAppend(s.atmQueue, if s.bank.balance >= amount then WithdrawOk(id) else WithdrawDenied(id));
    case GetBalance(id, _) => RepliesAppend(s.atmQueue, BalanceIs(id, s.bank.balance));
    case CancelWithdrawal(_, _) =>
    case CloseBank =>
  }

  lemma {:induction false} Regroup(a: seq<nat>, r: seq<nat>, c: seq<nat>, d: seq<nat>)
    ensures (a + r) + [] + c + d == a + r + c + d
  {
  }

  lemma {:induction false} AnswerKeepsOutstanding(s: System)
    requires s.bank.pc.Handling?
    ensures Outstanding(Answer(s)) == Outstanding(s)
  {
    AnswerMovesOne(s);
    Regroup(RepliesIn(s.atmQueue), InHand(s.bank.pc), RequestsIn(s.bankQueue), RequestsOut(s.atm.outbox));
  }

  lemma {:induction false} BankKeepsOutstanding(s: System)
    ensures Outstanding(BankNext(s)) == Outstanding(s)
  {
    hide RepliesIn, RequestsOut, Answer;
    if !s.bank.closed && s.bank.pc.Handling? {
      AnswerKeepsOutstanding(s);
    }
  }

  /** Only the cash machine's taking a message out of its queue changes what is outstanding. */
  lemma {:induction false} OutstandingKept(s: System, step: Step)
    requires !(step.AtmRuns? && Waits(s))
    ensures Outstanding(Next(s, step)) == Outstanding(s)
  {
    hide RequestsIn, RepliesIn, RequestsOut, InHand, Enter, BankNext, SendFirst, Dispatch;
    match step
    case Press(key) => RepliesAppend(s.atmQueue, key);
    case SwitchOffBank => RequestsAppend(s.bankQueue, CloseBank);
    case AtmRuns =>
      if !s.atm.closed && s.atm.outbox != [] {
        SendKeepsOutstanding(s);
      } else if !s.atm.closed && !s.atm.entered {
        EnterMakesNoRequest(s.atm);
        RequestsOutSmall(ToUi(EjectCard), ToUi(EjectCard));
      }
    case BankRuns => BankKeepsOutstanding(s);
  }

  /** The request that the handling of `msg` makes, if any. */
  function NewRequest(state: AtmState, msg: AtmMsg, id: nat): seq<nat> {
    match state
    case GettingPin => if msg.OkPressed? then [id] else []
    case GettingAmount => if msg.OkPressed? then [id] else []
    case WaitForAction => if msg.WithdrawProcessed? || msg.BalancePressed? then [id] else []
    case _ => []
  }

  lemma {:induction false} RequestsOutSmall(x: Out, y: Out)
    ensures RequestsOut([]) == []
    ensures RequestsOut([x]) == if x.ToBank? then RequestOf(x.request) else []
    ensures x.ToBank? && !IsRequest(x.request) && y.ToUi? ==> RequestsOut([x, y]) == []
  {
    assert [x][1..] == [] && [x, y][1..] == [y] && [y][1..] == [];
  }

  lemma {:induction false} HandleRequests(atm: Atm, msg: AtmMsg, id: nat)
    requires atm.outbox == []
    ensures match Handle(atm, msg, id)
      case None => NewRequest(atm.state, msg, id) == []
      case Some(atm') => RequestsOut(atm'.outbox) == NewRequest(atm.state, msg, id)
  {
    hide RequestsOut;
    var h := Handle(atm, msg, id);
    if h.Some? {
      var outbox := h.value.outbox;
      if |outbox| == 0 {
        RequestsOutSmall(ToUi(EjectCard), ToUi(EjectCard));
      } else if |outbox| == 1 {
        assert outbox == [outbox[0]];
        RequestsOutSmall(outbox[0], outbox[0]);
      } else {
        assert outbox == [outbox[0], outbox[1]];
        RequestsOutSmall(outbox[0], outbox[1]);
      }
    }
  }

  lemma {:induction false} DispatchParts(s: System)
    requires Waits(s)
    ensures var s' := Dispatch(s);
      && s'.atmQueue == s.atmQueue[1..] && s'.bank == s.bank && s'.bankQueue == s.bankQueue && s'.uiQueue == s.uiQueue
      && RequestsOut(s'.atm.outbox) == NewRequest(s.atm.state, s.atmQueue[0], |s.requests|)
      && s'.requests == (if Handle(s.atm, s.atmQueue[0], |s.requests|).None? then s.requests
                         else Record(s.atm, s.requests, s.atmQueue[0]))
  {
    HandleRequests(s.atm, s.atmQueue[0], |s.requests|);
  }

  lemma {:induction false} RegroupHead(h: seq<nat>, a: seq<nat>, b: seq<nat>, c: seq<nat>, d: seq<nat>)
    ensures (h + a) + b + c + [] == h + (a + b + c)
    ensures a + b + c + d == (a + b + c) + d
  {
  }

  /** Replies come in the order of the requests: the one taken is the oldest outstanding. */
  lemma {:induction false} DispatchOutstanding(s: System)
    requires Waits(s)
    ensures var msg := s.atmQueue[0];
      && (IsReply(msg) ==> |Outstanding(s)| > 0 && Outstanding(s)[0] == msg.id)
      && Outstanding(Dispatch(s)) ==
           (if IsReply(msg) then Outstanding(s)[1..] else Outstanding(s)) + NewRequest(s.atm.state, msg, |s.requests|)
  {
    hide Dispatch, RequestsIn, InHand, NewRequest;
    var msg := s.atmQueue[0];
    DispatchParts(s);
    RegroupHead(ReplyOf(msg), RepliesIn(s.atmQueue[1..]), InHand(s.bank.pc), RequestsIn(s.bankQueue),
      NewRequest(s.atm.state, msg, |s.requests|));
    var rest := RepliesIn(s.atmQueue[1..]) + InHand(s.bank.pc) + RequestsIn(s.bankQueue);
    assert Outstanding(s) == ReplyOf(msg) + rest;
    assert IsReply(msg) ==> ([msg.id] + rest)[1..] == rest;
  }

  // ---------- what holds in every run ----------

  predicate AtmMsgOk(requests: seq<Request>, m: AtmMsg) {
    match m
    case PinVerified(id) => id < |requests| && requests[id].PinRequest? && requests[id].pin == RIGHT_PIN
    case PinIncorrect(id) => id < |requests| && requests[id].PinRequest? && requests[id].pin != RIGHT_PIN
    case WithdrawOk(id) => id < |requests| && requests[id].WithdrawRequest? && requests[id].verdict == Accepted
    case WithdrawDenied(id) => id < |requests| && requests[id].WithdrawRequest? && requests[id].verdict == Denied
    case BalanceIs(id, _) => id < |requests| && requests[id].BalanceRequest?
    case _ => true
  }

  predicate BankMsgOk(requests: seq<Request>, m: BankMsg) {
    match m
    case VerifyPin(id, _, pin) => id < |requests| && requests[id] == PinRequest(pin)
    case Withdraw(id, _, amount) =>
      && id < |requests| && requests[id].WithdrawRequest?
      && requests[id].amount == amount && requests[id].verdict == Pending
    case GetBalance(id, _) => id < |requests| && requests[id].BalanceRequest?
    case _ => true
  }

  predicate Increasing(ids: seq<nat>, bound: nat) {
    && (forall i, j :: 0 <= i < j < |ids| ==> ids[i] < ids[j])
    && (forall i :: 0 <= i < |ids| ==> ids[i] < bound)
  }

  predicate MessagesOk(s: System) {
    && (forall i :: 0 <= i < |s.atmQueue| ==> AtmMsgOk(s.requests, s.atmQueue[i]))
    && (forall i :: 0 <= i < |s.bankQueue| ==> BankMsgOk(s.requests, s.bankQueue[i]))
    && (s.bank.pc.Handling? ==> BankMsgOk(s.requests, s.bank.pc.msg))
    && (forall i :: 0 <= i < |s.atm.outbox| && s.atm.outbox[i].ToBank? ==>
          BankMsgOk(s.requests, s.atm.outbox[i].request))
  }

  predicate AwaitsReply(state: AtmState) {
    state.VerifyingPin? || state.ProcessWithdrawal? || state.ProcessBalance?
  }

  /** A state that waits for the bank has made the last request, and its reply is the last to come. */
  predicate LastRequestOk(atm: Atm, requests: seq<Request>, o: seq<nat>) {
    AwaitsReply(atm.state) ==>
      && |requests| > 0 && |o| > 0 && o[|o| - 1] == |requests| - 1
      && var last := requests[|requests| - 1];
         && (atm.state.VerifyingPin? ==> last.PinRequest?)
         && (atm.state.ProcessBalance? ==> last.BalanceRequest?)
         && (atm.state.ProcessWithdrawal? ==>
               last.WithdrawRequest? && last.amount == atm.amount && !last.cancelled && !last.paid)
  }

  predicate Accepts(r: Request) {
    r.WithdrawRequest? && r.verdict == Accepted
  }

  predicate Paid(r: Request) {
    r.WithdrawRequest? && r.paid
  }

  predicate AcceptedUnpaid(r: Request) {
    Accepts(r) && !Paid(r)
  }

  function Weight(r: Request, counts: Request -> bool): nat {
    if r.WithdrawRequest? && counts(r) then r.amount else 0
  }

  function Total(requests: seq<Request>, counts: Request -> bool): nat {
    if requests == [] then 0
    else Total(requests[..|requests| - 1], counts) + Weight(requests[|requests| - 1], counts)
  }

  function InDeduction(pc: BankPc): nat {
    if pc.Deducting? then pc.amount else 0
  }

  predicate BooksOk(s: System) {
    && InDeduction(s.bank.pc) <= s.bank.balance < 0x1_0000_0000
    && s.bank.balance - InDeduction(s.bank.pc) + Total(s.requests, Accepts) == OPENING_BALANCE
  }

  predicate BaseFor(s: System, o: seq<nat>) {
    && Increasing(o, |s.requests|)
    && MessagesOk(s)
    && LastRequestOk(s.atm, s.requests, o)
    && BooksOk(s)
  }

  predicate Base(s: System) {
    BaseFor(s, Outstanding(s))
  }

  lemma {:induction false} TotalUpdate(requests: seq<Request>, i: nat, r: Request, counts: Request -> bool)
    requires i < |requests|
    ensures Total(requests[i := r], counts) + Weight(requests[i], counts) == Total(requests, counts) + Weight(r, counts)
    decreases |requests|
  {
    var n := |requests| - 1;
    if i == n {
      assert requests[i := r][..n] == requests[..n];
    } else {
      TotalUpdate(requests[..n], i, r, counts);
      assert requests[i := r][..n] == requests[..n][i := r];
    }
  }

  lemma {:induction false} TotalAppend(requests: seq<Request>, r: Request, counts: Request -> bool)
    ensures Total(requests + [r], counts) == Total(requests, counts) + Weight(r, counts)
  {
    assert (requests + [r])[..|requests|] == requests;
  }

  lemma {:induction false} TotalSplit(requests: seq<Request>)
    requires forall i :: 0 <= i < |requests| && Paid(requests[i]) ==> Accepts(requests[i])
    ensures Total(requests, Accepts) == Total(requests, Paid) + Total(requests, AcceptedUnpaid)
    decreases |requests|
  {
    if requests != [] {
      TotalSplit(requests[..|requests| - 1]);
    }
  }

  /** What messages say about a request does not change: its kind, its amount and its verdict. */
  predicate Agree(a: Request, b: Request) {
    match a
    case WithdrawRequest(amount, verdict, _, _) => b.WithdrawRequest? && b.amount == amount && b.verdict == verdict
    case _ => a == b
  }

  predicate Extends(before: seq<Request>, after: seq<Request>) {
    |before| <= |after| && forall i :: 0 <= i < |before| ==> Agree(before[i], after[i])
  }

  lemma {:induction false} ExtendedMessages(before: seq<Request>, after: seq<Request>)
    requires Extends(before, after)
    ensures forall m :: AtmMsgOk(before, m) ==> AtmMsgOk(after, m)
    ensures forall m :: BankMsgOk(before, m) ==> BankMsgOk(after, m)
  {
  }

  lemma {:induction false} PressKeepsBase(s: System, key: AtmMsg, o: seq<nat>)
    requires BaseFor(s, o)
    ensures BaseFor(Next(s, Press(key)), o)
  {
  }

  lemma {:induction false} SwitchOffKeepsBase(s: System, o: seq<nat>)
    requires BaseFor(s, o)
    ensures BaseFor(Next(s, SwitchOffBank), o)
  {
  }

  lemma {:induction false} SendKeepsMessages(s: System)
    requires MessagesOk(s) && s.atm.outbox != []
    ensures MessagesOk(SendFirst(s))
  {
  }

  lemma {:induction false} SendKeepsBase(s: System, o: seq<nat>)
    requires BaseFor(s, o) && s.atm.outbox != []
    ensures BaseFor(SendFirst(s), o)
  {
    hide Increasing, MessagesOk, Total;
    SendKeepsMessages(s);
  }

  lemma {:induction false} EnterLast(atm: Atm, requests: seq<Request>, o: seq<nat>)
    requires LastRequestOk(atm, requests, o)
    ensures LastRequestOk(Enter(atm), requests, o)
    ensures forall i :: 0 <= i < |Enter(atm).outbox| ==>
      Enter(atm).outbox[i] in atm.outbox || Enter(atm).outbox[i].ToUi?
  {
  }

  lemma {:induction false} EnterKeepsBase(s: System, o: seq<nat>)
    requires BaseFor(s, o) && s.atm.outbox == []
    ensures BaseFor(s.(atm := Enter(s.atm)), o)
  {
    EnterLast(s.atm, s.requests, o);
  }

  lemma {:induction false} RecordExtends(atm: Atm, requests: seq<Request>, msg: AtmMsg)
    ensures Extends(requests, Record(atm, requests, msg))
    ensures |Record(atm, requests, msg)| == |requests| + |NewRequest(atm.state, msg, |requests|)|
  {
  }

  lemma {:induction false} RecordTotal(atm: Atm, requests: seq<Request>, msg: AtmMsg)
    ensures Total(Record(atm, requests, msg), Accepts) == Total(requests, Accepts)
  {
    hide Total;
    var n := |requests|;
    var after := Record(atm, requests, msg);
    if |after| == n + 1 {
      TotalAppend(requests, after[n], Accepts);
    } else if n > 0 {
      TotalUpdate(requests, n - 1, after[n - 1], Accepts);
      assert after == requests[n - 1 := after[n - 1]];
    }
  }

  function AfterTaking(o: seq<nat>, atm: Atm, requests: seq<Request>, msg: AtmMsg): seq<nat> {
    (if IsReply(msg) && o != [] then o[1..] else o) + NewRequest(atm.state, msg, |requests|)
  }

  lemma {:induction false} IncreasingAfter(o: seq<nat>, atm: Atm, requests: seq<Request>, msg: AtmMsg)
    requires Increasing(o, |requests|)
    ensures Increasing(AfterTaking(o, atm, requests, msg), |requests| + |NewRequest(atm.state, msg, |requests|)|)
  {
  }

  lemma {:induction false} HandledMessagesOk(atm: Atm, requests: seq<Request>, msg: AtmMsg)
    requires atm.outbox == []
    ensures match Handle(atm, msg, |requests|)
      case None => true
      case Some(atm') => forall i :: 0 <= i < |atm'.outbox| && atm'.outbox[i].ToBank? ==>
        BankMsgOk(Record(atm, requests, msg), atm'.outbox[i].request)
  {
  }

  lemma {:induction false} DispatchKeepsMessages(s: System)
    requires MessagesOk(s) && Waits(s)
    ensures MessagesOk(Dispatch(s))
  {
    var msg := s.atmQueue[0];
    RecordExtends(s.atm, s.requests, msg);
    ExtendedMessages(s.requests, Record(s.atm, s.requests, msg));
    HandledMessagesOk(s.atm, s.requests, msg);
    DispatchParts(s);
  }

  lemma {:induction false} HandleKeepsLast(atm: Atm, requests: seq<Request>, o: seq<nat>, msg: AtmMsg)
    requires LastRequestOk(atm, requests, o) && AtmMsgOk(requests, msg) && Increasing(o, |requests|)
    requires IsReply(msg) ==> |o| > 0 && o[0] == msg.id
    ensures match Handle(atm, msg, |requests|)
      case None => LastRequestOk(atm, requests, AfterTaking(o, atm, requests, msg))
      case Some(atm') => LastRequestOk(atm', Record(atm, requests, msg), AfterTaking(o, atm, requests, msg))
  {
  }

  lemma {:induction false} CloseHasNoHandler(atm: Atm, id: nat)
    ensures Handle(atm, CloseAtm, id) == None
  {
  }

  predicate TakesOldest(s: System, o: seq<nat>) {
    Waits(s) && (IsReply(s.atmQueue[0]) ==> |o| > 0 && o[0] == s.atmQueue[0].id)
  }

  lemma {:induction false} DropKeepsBase(s: System, o: seq<nat>)
    requires BaseFor(s, o) && TakesOldest(s, o) && Handle(s.atm, s.atmQueue[0], |s.requests|) == None
    requires NewRequest(s.atm.state, s.atmQueue[0], |s.requests|) == []
    ensures BaseFor(Dispatch(s), AfterTaking(o, s.atm, s.requests, s.atmQueue[0]))
  {
    var msg, s' := s.atmQueue[0], Dispatch(s);
    assert AtmMsgOk(s.requests, msg);
    hide Handle, Record, MessagesOk, AtmMsgOk;
    DispatchKeepsMessages(s);
    HandleKeepsLast(s.atm, s.requests, o, msg);
    IncreasingAfter(o, s.atm, s.requests, msg);
    assert s'.requests == s.requests && s'.bank == s.bank;
    assert s'.atm == s.atm || s'.atm == s.atm.(closed := true);
  }

  lemma {:induction false} HandlingKeepsBase(s: System, o: seq<nat>)
    requires BaseFor(s, o) && TakesOldest(s, o) && Handle(s.atm, s.atmQueue[0], |s.requests|).Some?
    ensures BaseFor(Dispatch(s), AfterTaking(o, s.atm, s.requests, s.atmQueue[0]))
  {
    var msg, s' := s.atmQueue[0], Dispatch(s);
    CloseHasNoHandler(s.atm, |s.requests|);
    DispatchKeepsMessages(s);
    HandleKeepsLast(s.atm, s.requests, o, msg);
    RecordExtends(s.atm, s.requests, msg);
    RecordTotal(s.atm, s.requests, msg);
    IncreasingAfter(o, s.atm, s.requests, msg);
    assert s'.requests == Record(s.atm, s.requests, msg) && s'.bank == s.bank;
  }

  lemma {:induction false} DispatchKeepsBase(s: System)
    requires Base(s) && Waits(s)
    ensures Base(Dispatch(s))
    ensures Outstanding(Dispatch(s)) == AfterTaking(Outstanding(s), s.atm, s.requests, s.atmQueue[0])
    ensures TakesOldest(s, Outstanding(s))
  {
    hide Handle, Record, NewRequest, BaseFor, Dispatch, Outstanding;
    DispatchOutstanding(s);
    HandleRequests(s.atm, s.atmQueue[0], |s.requests|);
    if Handle(s.atm, s.atmQueue[0], |s.requests|) == None {
      DropKeepsBase(s, Outstanding(s));
    } else {
      HandlingKeepsBase(s, Outstanding(s));
    }
  }

  // ---------- the bank ----------

  lemma {:induction false} RepliesContain(q: seq<AtmMsg>, i: nat)
    requires i < |q| && IsReply(q[i])
    ensures q[i].id in RepliesIn(q)
    decreases i
  {
    if i > 0 {
      RepliesContain(q[1..], i - 1);
    }
  }

  lemma {:induction false} RequestsContain(q: seq<BankMsg>, i: nat)
    requires i < |q| && IsRequest(q[i])
    ensures q[i].id in RequestsIn(q)
    decreases i
  {
    if i > 0 {
      RequestsContain(q[1..], i - 1);
    }
  }

  lemma {:induction false} OutContains(outbox: seq<Out>, i: nat)
    requires i < |outbox| && outbox[i].ToBank? && IsRequest(outbox[i].request)
    ensures outbox[i].request.id in RequestsOut(outbox)
    decreases i
  {
    if i > 0 {
      OutContains(outbox[1..], i - 1);
    }
  }

  lemma {:induction false} IncreasingApart(a: seq<nat>, x: nat, c: seq<nat>, d: seq<nat>, bound: nat)
    requires Increasing(a + [x] + c + d, bound)
    ensures x !in a && x !in c && x !in d && x < bound
  {
    var o := a + [x] + c + d;
    assert o[|a|] == x;
    forall i | 0 <= i < |a| ensures a[i] != x {
      assert o[i] == a[i];
    }
    forall i | 0 <= i < |c| ensures c[i] != x {
      assert o[|a| + 1 + i] == c[i];
    }
    forall i | 0 <= i < |d| ensures d[i] != x {
      assert o[|a| + 1 + |c| + i] == d[i];
    }
  }

  /** No other message is about the request the bank has in hand. */
  predicate AboutOther(s: System, id: nat) {
    && (forall i :: 0 <= i < |s.atmQueue| && IsReply(s.atmQueue[i]) ==> s.atmQueue[i].id != id)
    && (forall i :: 0 <= i < |s.bankQueue| && IsRequest(s.bankQueue[i]) ==> s.bankQueue[i].id != id)
    && (forall i :: 0 <= i < |s.atm.outbox| && s.atm.outbox[i].ToBank? && IsRequest(s.atm.outbox[i].request) ==>
          s.atm.outbox[i].request.id != id)
  }

  lemma {:induction false} OnlyInHand(s: System)
    requires Increasing(Outstanding(s), |s.requests|) && s.bank.pc.Handling? && IsRequest(s.bank.pc.msg)
    ensures AboutOther(s, s.bank.pc.msg.id)
  {
    var id := s.bank.pc.msg.id;
    IncreasingApart(RepliesIn(s.atmQueue), id, RequestsIn(s.bankQueue), RequestsOut(s.atm.outbox), |s.requests|);
    forall i | 0 <= i < |s.atmQueue| && IsReply(s.atmQueue[i]) ensures s.atmQueue[i].id != id {
      RepliesContain(s.atmQueue, i);
    }
    forall i | 0 <= i < |s.bankQueue| && IsRequest(s.bankQueue[i]) ensures s.bankQueue[i].id != id {
      RequestsContain(s.bankQueue, i);
    }
    forall i | 0 <= i < |s.atm.outbox| && s.atm.outbox[i].ToBank? && IsRequest(s.atm.outbox[i].request)
      ensures s.atm.outbox[i].request.id != id
    {
      OutContains(s.atm.outbox, i);
    }
  }

  lemma {:induction false} VerdictOther(requests: seq<Request>, id: nat, v: Verdict)
    ensures forall m :: AtmMsgOk(requests, m) && (IsReply(m) ==> m.id != id) ==>
      AtmMsgOk(SetVerdict(requests, id, v), m)
    ensures forall m :: BankMsgOk(requests, m) && (IsRequest(m) ==> m.id != id) ==>
      BankMsgOk(SetVerdict(requests, id, v), m)
  {
  }

  lemma {:induction false} VerdictTotal(requests: seq<Request>, id: nat, v: Verdict)
    requires id < |requests| && requests[id].WithdrawRequest? && requests[id].verdict == Pending
    ensures Total(SetVerdict(requests, id, v), Accepts) ==
      Total(requests, Accepts) + (if v == Accepted then requests[id].amount else 0)
  {
    TotalUpdate(requests, id, requests[id].(verdict := v), Accepts);
  }

  lemma {:induction false} WithdrawalKeepsMessages(s: System)
    requires MessagesOk(s) && s.bank.pc.Handling? && s.bank.pc.msg.Withdraw? && AboutOther(s, s.bank.pc.msg.id)
    ensures MessagesOk(Answer(s))
  {
    var id := s.bank.pc.msg.id;
    VerdictOther(s.requests, id, if s.bank.balance >= s.bank.pc.msg.amount then Accepted else Denied);
  }

  lemma {:induction false} WithdrawalKeepsBase(s: System, o: seq<nat>)
    requires BaseFor(s, o) && s.bank.pc.Handling? && s.bank.pc.msg.Withdraw? && AboutOther(s, s.bank.pc.msg.id)
    ensures BaseFor(Answer(s), o)
  {
    WithdrawalKeepsMessages(s);
    VerdictTotal(s.requests, s.bank.pc.msg.id, if s.bank.balance >= s.bank.pc.msg.amount then Accepted else Denied);
  }

  lemma {:induction false} OtherAnswerKeepsBase(s: System, o: seq<nat>)
    requires BaseFor(s, o) && s.bank.pc.Handling? && !s.bank.pc.msg.Withdraw?
    ensures BaseFor(Answer(s), o)
  {
    hide Increasing, LastRequestOk, Total;
  }

  lemma {:induction false} BankKeepsBase(s: System)
    requires Base(s)
    ensures BaseFor(BankNext(s), Outstanding(s))
  {
    if !s.bank.closed && s.bank.pc.Handling? {
      if s.bank.pc.msg.Withdraw? {
        OnlyInHand(s);
        WithdrawalKeepsBase(s, Outstanding(s));
      } else {
        OtherAnswerKeepsBase(s, Outstanding(s));
      }
    } else {
      BankPopKeepsBase(s, Outstanding(s));
    }
  }

  lemma {:induction false} BankPopKeepsBase(s: System, o: seq<nat>)
    requires BaseFor(s, o) && (s.bank.closed || !s.bank.pc.Handling?)
    ensures BaseFor(BankNext(s), o)
  {
    hide Increasing, LastRequestOk, Total;
  }

  lemma {:induction false} NextKeepsBase(s: System, step: Step)
    requires Base(s)
    ensures Base(Next(s, step))
  {
    hide BaseFor, Outstanding, Dispatch, BankNext, Enter, SendFirst;
    if step.AtmRuns? && Waits(s) {
      DispatchKeepsBase(s);
    } else {
      OutstandingKept(s, step);
      match step
      case Press(key) => PressKeepsBase(s, key, Outstanding(s));
      case SwitchOffBank => SwitchOffKeepsBase(s, Outstanding(s));
      case AtmRuns =>
        if !s.atm.closed && s.atm.outbox != [] {
          SendKeepsBase(s, Outstanding(s));
        } else if !s.atm.closed && !s.atm.entered {
          EnterKeepsBase(s, Outstanding(s));
        }
      case BankRuns => BankKeepsBase(s);
    }
  }

  // ---------- whose reply it is ----------

  /** A reply that is taken while waiting for one answers the last request exactly when no other
      request of its kind is outstanding; for a withdrawal, no other request at all. */
  lemma {:induction false} ReplyAnswersLastIffAlone(s: System)
    requires Base(s) && Waits(s)
    ensures var msg, n, o := s.atmQueue[0], |s.requests|, Outstanding(s);
      && (s.atm.state.ProcessWithdrawal? && (msg.WithdrawOk? || msg.WithdrawDenied?) ==>
            (msg.id == n - 1 <==> |o| == 1))
      && (s.atm.state.VerifyingPin? && (msg.PinVerified? || msg.PinIncorrect?) ==>
            (msg.id == n - 1 <==> OnlyLastIsPin(s.requests, o)))
  {
    DispatchOutstanding(s);
    var msg, o := s.atmQueue[0], Outstanding(s);
    assert AtmMsgOk(s.requests, msg);
  }

  predicate OnlyLastIsPin(requests: seq<Request>, o: seq<nat>) {
    forall i :: 0 <= i < |o| - 1 ==> o[i] < |requests| ==> !requests[o[i]].PinRequest?
  }

  predicate NoPin(requests: seq<Request>, o: seq<nat>) {
    forall i :: 0 <= i < |o| ==> o[i] < |requests| ==> !requests[o[i]].PinRequest?
  }

  /** Past the PIN nothing is outstanding but what the current state waits for. */
  predicate Shape(atm: Atm, requests: seq<Request>, o: seq<nat>) {
    match atm.state
    case WaitForAction => o == []
    case GettingAmount => o == []
    case ContinueProcessing => o == []
    case ProcessWithdrawal => |o| == 1
    case ProcessBalance => |o| == 1
    case VerifyingPin => OnlyLastIsPin(requests, o)
    case _ => true
  }

  /** Without a cancel while the PIN is being verified, no PIN reply is ever left behind. */
  predicate PinsInStep(atm: Atm, requests: seq<Request>, o: seq<nat>) {
    if atm.state.VerifyingPin? then OnlyLastIsPin(requests, o) else NoPin(requests, o)
  }

  lemma {:induction false} HandleKeepsShape(atm: Atm, requests: seq<Request>, o: seq<nat>, msg: AtmMsg)
    requires LastRequestOk(atm, requests, o) && AtmMsgOk(requests, msg) && Increasing(o, |requests|)
    requires IsReply(msg) ==> |o| > 0 && o[0] == msg.id
    requires Shape(atm, requests, o)
    requires atm.state.GettingPin? && msg.OkPressed? ==> NoPin(requests, o)
    ensures match Handle(atm, msg, |requests|)
      case None => Shape(atm, requests, AfterTaking(o, atm, requests, msg))
      case Some(atm') => Shape(atm', Record(atm, requests, msg), AfterTaking(o, atm, requests, msg))
  {
  }

  lemma {:induction false} VerifyingKeepsPins(atm: Atm, requests: seq<Request>, o: seq<nat>, msg: AtmMsg)
    requires LastRequestOk(atm, requests, o) && AtmMsgOk(requests, msg) && Increasing(o, |requests|)
    requires IsReply(msg) ==> |o| > 0 && o[0] == msg.id
    requires atm.state.VerifyingPin? && OnlyLastIsPin(requests, o) && !msg.CancelPressed?
    ensures match Handle(atm, msg, |requests|)
      case None => OnlyLastIsPin(requests, if IsReply(msg) then o[1..] else o)
      case Some(atm') => IsReply(msg) && o[1..] == [] && !atm'.state.VerifyingPin?
  {
  }

  /** Which of the requests are for a PIN. */
  lemma {:induction false} RecordedPins(atm: Atm, requests: seq<Request>, msg: AtmMsg)
    ensures var after := Record(atm, requests, msg);
      && |after| == |requests| + |NewRequest(atm.state, msg, |requests|)|
      && (forall i :: 0 <= i < |requests| ==> after[i].PinRequest? == requests[i].PinRequest?)
      && (|after| > |requests| ==> after[|requests|].PinRequest? == atm.state.GettingPin?)
  {
  }

  lemma {:induction false} OthersKeepPins(atm: Atm, requests: seq<Request>, o: seq<nat>, msg: AtmMsg)
    requires Increasing(o, |requests|) && !atm.state.VerifyingPin? && NoPin(requests, o)
    ensures match Handle(atm, msg, |requests|)
      case None => NewRequest(atm.state, msg, |requests|) == []
      case Some(atm') => PinsInStep(atm', Record(atm, requests, msg), AfterTaking(o, atm, requests, msg))
  {
    hide Record;
    RecordedPins(atm, requests, msg);
  }

  lemma {:induction false} HandleKeepsPins(atm: Atm, requests: seq<Request>, o: seq<nat>, msg: AtmMsg)
    requires LastRequestOk(atm, requests, o) && AtmMsgOk(requests, msg) && Increasing(o, |requests|)
    requires IsReply(msg) ==> |o| > 0 && o[0] == msg.id
    requires PinsInStep(atm, requests, o) && !(atm.state.VerifyingPin? && msg.CancelPressed?)
    ensures match Handle(atm, msg, |requests|)
      case None => PinsInStep(atm, requests, AfterTaking(o, atm, requests, msg))
      case Some(atm') => PinsInStep(atm', Record(atm, requests, msg), AfterTaking(o, atm, requests, msg))
  {
    if atm.state.VerifyingPin? {
      VerifyingKeepsPins(atm, requests, o, msg);
    } else {
      OthersKeepPins(atm, requests, o, msg);
    }
  }

  // ---------- what is paid ----------

  function IssuedUi(q: seq<UiMsg>): nat {
    if q == [] then 0 else IssuedUi(q[..|q| - 1]) + (if q[|q| - 1].IssueMoney? then q[|q| - 1].amount else 0)
  }

  function Issue(m: Out): nat {
    if m.ToUi? && m.display.IssueMoney? then m.display.amount else 0
  }

  function IssuedOut(outbox: seq<Out>): nat {
    if outbox == [] then 0 else Issue(outbox[0]) + IssuedOut(outbox[1..])
  }

  /** The money paid out, including the message about to be sent. */
  function Issued(s: System): nat {
    IssuedUi(s.uiQueue) + IssuedOut(s.atm.outbox)
  }

  /** Neither refused, paid nor given up. */
  predicate Open(r: Request) {
    r.WithdrawRequest? && r.verdict != Denied && !r.cancelled && !r.paid
  }

  predicate RequestsOk(atm: Atm, requests: seq<Request>) {
    && (forall i :: 0 <= i < |requests| && Paid(requests[i]) ==> Accepts(requests[i]) && !requests[i].cancelled)
    && (forall i :: 0 <= i < |requests| && Open(requests[i]) ==> i == |requests| - 1 && atm.state.ProcessWithdrawal?)
  }

  predicate PaymentsOk(s: System) {
    RequestsOk(s.atm, s.requests) && Total(s.requests, Paid) == Issued(s)
  }

  predicate Good(s: System) {
    && Base(s)
    && (!s.overlapped ==> Shape(s.atm, s.requests, Outstanding(s)) && PaymentsOk(s))
    && (!s.lateCancel ==> !s.overlapped && PinsInStep(s.atm, s.requests, Outstanding(s)))
  }

  lemma {:induction false} IssuedUiAppend(q: seq<UiMsg>, m: UiMsg)
    ensures IssuedUi(q + [m]) == IssuedUi(q) + (if m.IssueMoney? then m.amount else 0)
  {
    assert (q + [m])[..|q|] == q;
  }

  lemma {:induction false} SendKeepsIssued(s: System)
    requires s.atm.outbox != []
    ensures Issued(SendFirst(s)) == Issued(s)
  {
    var m := s.atm.outbox[0];
    if m.ToUi? {
      IssuedUiAppend(s.uiQueue, m.display);
    }
  }

  lemma {:induction false} IssuedOutSmall(x: Out, y: Out)
    ensures IssuedOut([]) == 0 && IssuedOut([x]) == Issue(x) && IssuedOut([x, y]) == Issue(x) + Issue(y)
  {
    assert [x][1..] == [] && [x, y][1..] == [y] && [y][1..] == [];
  }

  lemma {:induction false} HandleIssues(atm: Atm, msg: AtmMsg, id: nat)
    requires atm.outbox == []
    ensures match Handle(atm, msg, id)
      case None => true
      case Some(atm') =>
        IssuedOut(atm'.outbox) == if atm.state.ProcessWithdrawal? && msg.WithdrawOk? then atm.amount else 0
  {
    hide IssuedOut;
    var h := Handle(atm, msg, id);
    if h.Some? {
      var outbox := h.value.outbox;
      if outbox == [] {
        IssuedOutSmall(ToUi(EjectCard), ToUi(EjectCard));
      } else if |outbox| == 1 {
        assert outbox == [outbox[0]];
        IssuedOutSmall(outbox[0], outbox[0]);
      } else {
        assert outbox == [outbox[0], outbox[1]];
        IssuedOutSmall(outbox[0], outbox[1]);
      }
    }
  }

  lemma {:induction false} RecordPays(atm: Atm, requests: seq<Request>, o: seq<nat>, msg: AtmMsg)
    requires LastRequestOk(atm, requests, o)
    ensures Total(Record(atm, requests, msg), Paid) ==
      Total(requests, Paid) + (if atm.state.ProcessWithdrawal? && msg.WithdrawOk? then atm.amount else 0)
  {
    hide Total;
    var n := |requests|;
    var after := Record(atm, requests, msg);
    if |after| == n + 1 {
      TotalAppend(requests, after[n], Paid);
    } else if n > 0 {
      TotalUpdate(requests, n - 1, after[n - 1], Paid);
      assert after == requests[n - 1 := after[n - 1]];
    }
  }

  lemma {:induction false} HandleKeepsRequestsOk(atm: Atm, requests: seq<Request>, o: seq<nat>, msg: AtmMsg)
    requires LastRequestOk(atm, requests, o) && AtmMsgOk(requests, msg)
    requires IsReply(msg) ==> |o| > 0 && o[0] == msg.id
    requires Shape(atm, requests, o) && RequestsOk(atm, requests)
    ensures match Handle(atm, msg, |requests|)
      case None => true
      case Some(atm') => RequestsOk(atm', Record(atm, requests, msg))
  {
  }

  lemma {:induction false} DispatchKeepsShape(s: System, o: seq<nat>)
    requires BaseFor(s, o) && TakesOldest(s, o) && Shape(s.atm, s.requests, o)
    requires s.atm.state.GettingPin? && s.atmQueue[0].OkPressed? ==> NoPin(s.requests, o)
    ensures Shape(Dispatch(s).atm, Dispatch(s).requests, AfterTaking(o, s.atm, s.requests, s.atmQueue[0]))
  {
    hide Handle, Record;
    CloseHasNoHandler(s.atm, |s.requests|);
    HandleKeepsShape(s.atm, s.requests, o, s.atmQueue[0]);
  }

  lemma {:induction false} DispatchKeepsPins(s: System, o: seq<nat>)
    requires BaseFor(s, o) && TakesOldest(s, o) && PinsInStep(s.atm, s.requests, o)
    requires !(s.atm.state.VerifyingPin? && s.atmQueue[0].CancelPressed?)
    ensures PinsInStep(Dispatch(s).atm, Dispatch(s).requests, AfterTaking(o, s.atm, s.requests, s.atmQueue[0]))
  {
    hide Handle, Record;
    CloseHasNoHandler(s.atm, |s.requests|);
    HandleKeepsPins(s.atm, s.requests, o, s.atmQueue[0]);
  }

  /** What taking the first message pays. */
  function Payment(s: System): nat
    requires Waits(s)
  {
    if s.atm.state.ProcessWithdrawal? && s.atmQueue[0].WithdrawOk? then s.atm.amount else 0
  }

  lemma {:induction false} DispatchIssues(s: System)
    requires Waits(s)
    ensures Issued(Dispatch(s)) == Issued(s) + Payment(s)
  {
    hide Handle, Record, Outstanding, PinOutstanding;
    HandleIssues(s.atm, s.atmQueue[0], |s.requests|);
    PayingIsHandled(s.atm, s.atmQueue[0], |s.requests|);
    CloseHasNoHandler(s.atm, |s.requests|);
  }

  lemma {:induction false} DispatchPays(s: System, o: seq<nat>)
    requires Waits(s) && LastRequestOk(s.atm, s.requests, o)
    ensures Total(Dispatch(s).requests, Paid) == Total(s.requests, Paid) + Payment(s)
  {
    hide Handle, Record, Outstanding, PinOutstanding, LastRequestOk, Total;
    RecordPays(s.atm, s.requests, o, s.atmQueue[0]);
    PayingIsHandled(s.atm, s.atmQueue[0], |s.requests|);
    CloseHasNoHandler(s.atm, |s.requests|);
  }

  lemma {:induction false} DispatchKeepsRequestsOk(s: System, o: seq<nat>)
    requires BaseFor(s, o) && TakesOldest(s, o) && Shape(s.atm, s.requests, o) && RequestsOk(s.atm, s.requests)
    ensures RequestsOk(Dispatch(s).atm, Dispatch(s).requests)
  {
    hide Handle, Record, RequestsOk, Shape, Outstanding, PinOutstanding;
    CloseHasNoHandler(s.atm, |s.requests|);
    HandleKeepsRequestsOk(s.atm, s.requests, o, s.atmQueue[0]);
    DropKeepsRequestsOk(s.atm, s.requests);
  }

  lemma {:induction false} DropKeepsRequestsOk(atm: Atm, requests: seq<Request>)
    requires RequestsOk(atm, requests)
    ensures forall closed :: RequestsOk(atm.(closed := closed), requests)
  {
  }

  lemma {:induction false} DispatchKeepsPayments(s: System, o: seq<nat>)
    requires BaseFor(s, o) && TakesOldest(s, o) && Shape(s.atm, s.requests, o) && PaymentsOk(s)
    ensures PaymentsOk(Dispatch(s))
  {
    hide Dispatch, Total, Issued, Payment, RequestsOk, Shape, LastRequestOk;
    DispatchIssues(s);
    DispatchPays(s, o);
    DispatchKeepsRequestsOk(s, o);
  }

  lemma {:induction false} PayingIsHandled(atm: Atm, msg: AtmMsg, id: nat)
    ensures atm.state.ProcessWithdrawal? && msg.WithdrawOk? ==> Handle(atm, msg, id).Some?
  {
  }

  lemma {:induction false} DispatchFlags(s: System)
    requires Waits(s)
    ensures var s' := Dispatch(s);
      && (!s'.overlapped ==> !s.overlapped)
      && (!s'.overlapped && s.atm.state.GettingPin? && s.atmQueue[0].OkPressed? ==> NoPin(s.requests, Outstanding(s)))
      && (!s'.lateCancel ==> !s.lateCancel && !(s.atm.state.VerifyingPin? && s.atmQueue[0].CancelPressed?))
      && (s'.overlapped ==> s.overlapped || (s.atm.state.GettingPin? && !NoPin(s.requests, Outstanding(s))))
  {
  }

  lemma {:induction false} DispatchKeepsGood(s: System)
    requires Good(s) && Waits(s)
    ensures Good(Dispatch(s))
  {
    hide Handle, Record, Outstanding, Dispatch;
    var o, s' := Outstanding(s), Dispatch(s);
    DispatchKeepsBase(s);
    DispatchFlags(s);
    if !s'.lateCancel {
      DispatchKeepsPins(s, o);
    }
    if !s'.overlapped {
      DispatchKeepsPayments(s, o);
      DispatchKeepsShape(s, o);
    }
  }

  /** A step that takes no message leaves requests of the same kind and the same flags. */
  predicate SameButVerdicts(before: seq<Request>, after: seq<Request>) {
    && |before| == |after|
    && forall i :: 0 <= i < |before| ==>
         || after[i] == before[i]
         || (before[i].WithdrawRequest? && before[i].verdict == Pending && after[i].WithdrawRequest? &&
             after[i] == before[i].(verdict := after[i].verdict))
  }

  lemma {:induction false} VerdictChange(requests: seq<Request>, id: nat, v: Verdict)
    requires id < |requests| && requests[id].WithdrawRequest? && requests[id].verdict == Pending
    ensures SameButVerdicts(requests, SetVerdict(requests, id, v))
    ensures Total(SetVerdict(requests, id, v), Paid) == Total(requests, Paid)
  {
    TotalUpdate(requests, id, requests[id].(verdict := v), Paid);
  }

  lemma {:induction false} BankVerdicts(s: System)
    requires Base(s)
    ensures SameButVerdicts(s.requests, BankNext(s).requests)
    ensures Total(BankNext(s).requests, Paid) == Total(s.requests, Paid)
    ensures BankNext(s).atm == s.atm && BankNext(s).uiQueue == s.uiQueue
    ensures BankNext(s).overlapped == s.overlapped && BankNext(s).lateCancel == s.lateCancel
  {
    if !s.bank.closed && s.bank.pc.Handling? && s.bank.pc.msg.Withdraw? {
      VerdictChange(s.requests, s.bank.pc.msg.id, if s.bank.balance >= s.bank.pc.msg.amount then Accepted else Denied);
    }
  }

  lemma {:induction false} VerdictsKeepShape(atm: Atm, before: seq<Request>, after: seq<Request>, o: seq<nat>)
    requires SameButVerdicts(before, after)
    ensures Shape(atm, before, o) ==> Shape(atm, after, o)
    ensures PinsInStep(atm, before, o) ==> PinsInStep(atm, after, o)
    ensures RequestsOk(atm, before) ==> RequestsOk(atm, after)
  {
  }

  lemma {:induction false} BankKeepsGood(s: System)
    requires Good(s)
    ensures Good(BankNext(s))
  {
    hide Base, Outstanding, Total, BankNext, SameButVerdicts, Shape, PinsInStep, RequestsOk, IssuedUi, IssuedOut;
    NextKeepsBase(s, BankRuns);
    OutstandingKept(s, BankRuns);
    BankVerdicts(s);
    VerdictsKeepShape(s.atm, s.requests, BankNext(s).requests, Outstanding(s));
  }

  lemma {:induction false} EnterKeepsShape(atm: Atm, requests: seq<Request>, o: seq<nat>)
    requires atm.outbox == []
    ensures Shape(atm, requests, o) ==> Shape(Enter(atm), requests, o)
    ensures PinsInStep(atm, requests, o) ==> PinsInStep(Enter(atm), requests, o)
    ensures RequestsOk(atm, requests) ==> RequestsOk(Enter(atm), requests)
    ensures IssuedOut(Enter(atm).outbox) == 0
  {
    if Enter(atm).outbox != [] {
      IssuedOutSmall(Enter(atm).outbox[0], Enter(atm).outbox[0]);
      assert Enter(atm).outbox == [Enter(atm).outbox[0]];
    }
  }

  lemma {:induction false} EnterIssuesNothing(s: System)
    requires !s.atm.closed && s.atm.outbox == [] && !s.atm.entered
    ensures Issued(AtmNext(s)) == Issued(s) && AtmNext(s).requests == s.requests
  {
    EnterKeepsShape(s.atm, s.requests, []);
  }

  lemma {:induction false} EnterKeepsFlags(s: System)
    requires !s.atm.closed && s.atm.outbox == [] && !s.atm.entered
    ensures AtmNext(s) == s.(atm := Enter(s.atm))
  {
  }

  lemma {:induction false} EnterKeepsGood(s: System)
    requires Good(s) && !s.atm.closed && s.atm.outbox == [] && !s.atm.entered
    ensures Good(AtmNext(s))
  {
    hide Base, Outstanding, Total, Enter, Shape, PinsInStep, RequestsOk, IssuedUi, IssuedOut;
    NextKeepsBase(s, AtmRuns);
    OutstandingKept(s, AtmRuns);
    EnterKeepsShape(s.atm, s.requests, Outstanding(s));
    EnterIssuesNothing(s);
    EnterKeepsFlags(s);
  }

  /** A step that moves messages on and changes nothing else that `Good` is about. */
  lemma {:induction false} GoodWhenMovedOn(s: System, s': System)
    requires Good(s) && Base(s') && Outstanding(s') == Outstanding(s) && Issued(s') == Issued(s)
    requires s'.atm == s.atm.(outbox := s'.atm.outbox) && s'.requests == s.requests
    requires s'.overlapped == s.overlapped && s'.lateCancel == s.lateCancel
    ensures Good(s')
  {
    hide Base, Outstanding, Issued, Total, NoPin, OnlyLastIsPin;
  }

  lemma {:induction false} GoodHasBase(s: System)
    requires Good(s)
    ensures Base(s)
  {
  }

  lemma {:induction false} SendKeepsGood(s: System)
    requires Good(s) && !s.atm.closed && s.atm.outbox != []
    ensures Good(AtmNext(s))
  {
    hide Good, Base, Outstanding, Issued;
    GoodHasBase(s);
    NextKeepsBase(s, AtmRuns);
    OutstandingKept(s, AtmRuns);
    SendKeepsIssued(s);
    GoodWhenMovedOn(s, AtmNext(s));
  }

  /** A message from outside, for the cash machine or the bank. */
  lemma {:induction false} MessageKeepsGood(s: System, step: Step)
    requires Good(s) && (step.Press? || step.SwitchOffBank?)
    ensures Good(Next(s, step))
  {
    hide Good, Base, Outstanding;
    GoodHasBase(s);
    NextKeepsBase(s, step);
    OutstandingKept(s, step);
    GoodWhenMovedOn(s, Next(s, step));
  }

  lemma {:induction false} NextKeepsGood(s: System, step: Step)
    requires Good(s)
    ensures Good(Next(s, step))
  {
    hide Good, Dispatch, SendFirst, Enter, BankNext;
    match step
    case Press(_) => MessageKeepsGood(s, step);
    case SwitchOffBank => MessageKeepsGood(s, step);
    case AtmRuns =>
      if Waits(s) {
        DispatchKeepsGood(s);
      } else if !s.atm.closed && s.atm.outbox != [] {
        SendKeepsGood(s);
      } else if !s.atm.closed && !s.atm.entered {
        EnterKeepsGood(s);
      }
    case BankRuns => BankKeepsGood(s);
  }

  lemma {:induction false} InitHasBase()
    ensures Outstanding(INIT) == [] && Base(INIT)
  {
    hide BaseFor;
    assert Outstanding(INIT) == [];
    InitHasBaseFor();
  }

  lemma {:induction false} InitHasBaseFor()
    ensures BaseFor(INIT, [])
  {
  }

  lemma {:induction false} InitIsGood()
    ensures Good(INIT)
  {
    hide Base, Outstanding;
    InitHasBase();
  }

  lemma {:induction false} RunIsGood(steps: seq<Step>)
    ensures Good(Run(INIT, steps))
  {
    hide Good, Next;
    InitIsGood();
    forall s, step | Good(s) ensures Good(Next(s, step)) {
      NextKeepsGood(s, step);
    }
    Runs.RunKeeps(Next, Good, INIT, steps);
  }

  // ---------- the guarantees ----------

  /** In a run in which no PIN is sent off while an earlier one is unanswered: when the machine takes
      an answer to a withdrawal, it is the answer to its last request, and for the amount it shows. */
  lemma {:induction false} WithdrawalAnswerIsCurrent(steps: seq<Step>)
    requires !Run(INIT, steps).overlapped
    ensures var s := Run(INIT, steps);
      Waits(s) && s.atm.state.ProcessWithdrawal? && (s.atmQueue[0].WithdrawOk? || s.atmQueue[0].WithdrawDenied?) ==>
        var id := s.atmQueue[0].id;
        && id == |s.requests| - 1
        && s.requests[id].WithdrawRequest? && s.requests[id].amount == s.atm.amount
        && s.requests[id].verdict == (if s.atmQueue[0].WithdrawOk? then Accepted else Denied)
  {
    RunIsGood(steps);
    var s := Run(INIT, steps);
    if Waits(s) {
      ReplyAnswersLastIffAlone(s);
      assert AtmMsgOk(s.requests, s.atmQueue[0]);
    }
  }

  /** In such a run no money is lost or made: what is on the account, what has been paid out and what
      was accepted but not paid add up to the opening balance. Accepted and unpaid is only what was
      cancelled at the machine, or the withdrawal it is waiting for. */
  lemma {:induction false} MoneyIsConserved(steps: seq<Step>)
    requires !Run(INIT, steps).overlapped
    ensures var s := Run(INIT, steps);
      && InDeduction(s.bank.pc) <= s.bank.balance
      && Conserved(s)
      && forall i :: 0 <= i < |s.requests| && AcceptedUnpaid(s.requests[i]) ==>
           s.requests[i].cancelled || (i == |s.requests| - 1 && s.atm.state.ProcessWithdrawal?)
  {
    RunIsGood(steps);
    TotalSplit(Run(INIT, steps).requests);
  }

  /** Never cancelling while a PIN is being verified is enough for that. */
  lemma {:induction false} NoLateCancelNoOverlap(steps: seq<Step>)
    requires !Run(INIT, steps).lateCancel
    ensures !Run(INIT, steps).overlapped
  {
    RunIsGood(steps);
  }

  // ---------- the books in every run ----------

  predicate PaidUnaccepted(r: Request) {
    Paid(r) && !Accepts(r)
  }

  /** What has been paid out on requests that the bank has not accepted, or not yet. */
  function Excess(s: System): nat {
    Total(s.requests, PaidUnaccepted)
  }

  /** What is on the account, what has been paid out and what was accepted but not paid. */
  function Books(s: System): int {
    s.bank.balance - InDeduction(s.bank.pc) + Issued(s) + Total(s.requests, AcceptedUnpaid)
  }

  predicate Conserved(s: System) {
    Books(s) == OPENING_BALANCE
  }

  /** What holds in every run, with or without late cancels. */
  predicate Steady(s: System) {
    Base(s) && Total(s.requests, Paid) == Issued(s)
  }

  lemma {:induction false} BaseHasLast(s: System)
    requires Base(s)
    ensures LastRequestOk(s.atm, s.requests, Outstanding(s))
  {
  }

  lemma {:induction false} DispatchKeepsSteady(s: System)
    requires Steady(s) && Waits(s)
    ensures Steady(Dispatch(s))
  {
    hide Dispatch, Base, Outstanding, Total, Issued, Payment, LastRequestOk;
    DispatchKeepsBase(s);
    DispatchIssues(s);
    BaseHasLast(s);
    DispatchPays(s, Outstanding(s));
  }

  lemma {:induction false} NextKeepsSteady(s: System, step: Step)
    requires Steady(s)
    ensures Steady(Next(s, step))
  {
    NextKeepsBase(s, step);
    hide Base, Total, IssuedUi, IssuedOut, BankNext, Dispatch, SendFirst, Enter;
    match step
    case Press(_) =>
    case SwitchOffBank =>
    case AtmRuns =>
      if Waits(s) {
        DispatchKeepsSteady(s);
      } else if !s.atm.closed && s.atm.outbox != [] {
        SendKeepsIssued(s);
        SendKeepsRequests(s);
      } else if !s.atm.closed && !s.atm.entered {
        EnterIssuesNothing(s);
      }
    case BankRuns => BankVerdicts(s);
  }

  lemma {:induction false} SendKeepsRequests(s: System)
    requires s.atm.outbox != []
    ensures SendFirst(s).requests == s.requests
  {
  }

  lemma {:induction false} InitIsSteady()
    ensures Steady(INIT)
  {
    InitIsGood();
  }

  lemma {:induction false} RunIsSteady(steps: seq<Step>)
    ensures Steady(Run(INIT, steps))
  {
    hide Steady, Next;
    InitIsSteady();
    forall s, step | Steady(s) ensures Steady(Next(s, step)) {
      NextKeepsSteady(s, step);
    }
    Runs.RunKeeps(Next, Steady, INIT, steps);
  }

  lemma {:induction false} TotalsAgree(requests: seq<Request>)
    ensures Total(requests, Accepts) + Total(requests, PaidUnaccepted) ==
      Total(requests, Paid) + Total(requests, AcceptedUnpaid)
    decreases |requests|
  {
    if requests != [] {
      TotalsAgree(requests[..|requests| - 1]);
    }
  }

  lemma {:induction false} SteadyBooks(s: System)
    requires Steady(s)
    ensures Books(s) == OPENING_BALANCE + Excess(s)
  {
    TotalsAgree(s.requests);
    hide Total, Issued, Increasing, MessagesOk, LastRequestOk, Outstanding;
  }

  /** The law that every run obeys: the books are over by exactly what has been paid unaccepted. */
  lemma {:induction false} EveryRunBalances(steps: seq<Step>)
    ensures Books(Run(INIT, steps)) == OPENING_BALANCE + Excess(Run(INIT, steps))
  {
    RunIsSteady(steps);
    SteadyBooks(Run(INIT, steps));
  }

  lemma {:induction false} TotalZeroIff(requests: seq<Request>, counts: Request -> bool)
    ensures Total(requests, counts) == 0 <==> forall i :: 0 <= i < |requests| ==> Weight(requests[i], counts) == 0
    decreases |requests|
  {
    if requests != [] {
      var n := |requests| - 1;
      TotalZeroIff(requests[..n], counts);
      assert Total(requests, counts) == 0 <==> Total(requests[..n], counts) == 0 && Weight(requests[n], counts) == 0;
    }
  }

  /** Money is conserved exactly when every request that was paid has been accepted or is for nothing. */
  lemma {:induction false} ConservedIffPaidAccepted(steps: seq<Step>)
    ensures var s := Run(INIT, steps);
      Conserved(s) <==>
        forall i :: 0 <= i < |s.requests| && s.requests[i].WithdrawRequest? && s.requests[i].paid ==>
          s.requests[i].verdict == Accepted || s.requests[i].amount == 0
  {
    var s := Run(INIT, steps);
    EveryRunBalances(steps);
    TotalZeroIff(s.requests, PaidUnaccepted);
    hide Run, Books, Total;
    forall i | 0 <= i < |s.requests|
      ensures Weight(s.requests[i], PaidUnaccepted) == 0 <==>
        (s.requests[i].WithdrawRequest? && s.requests[i].paid ==>
          s.requests[i].verdict == Accepted || s.requests[i].amount == 0)
    {
    }
  }

  // ---------- the step that decides ----------

  /** The machine takes a `withdraw_ok` and pays. */
  predicate Pays(s: System, step: Step) {
    step.AtmRuns? && Waits(s) && s.atm.state.ProcessWithdrawal? && s.atmQueue[0].WithdrawOk?
  }

  /** The last request, for which it pays, is accepted already or is for nothing. */
  predicate PaysRightly(s: System, step: Step) {
    Pays(s, step) ==>
      |s.requests| > 0 && (Accepts(s.requests[|s.requests| - 1]) || s.atm.amount == 0)
  }

  lemma {:induction false} RecordExcess(atm: Atm, requests: seq<Request>, o: seq<nat>, msg: AtmMsg)
    requires LastRequestOk(atm, requests, o)
    ensures atm.state.ProcessWithdrawal? && msg.WithdrawOk? ==> |requests| > 0
    ensures Total(Record(atm, requests, msg), PaidUnaccepted) ==
      Total(requests, PaidUnaccepted) +
      (if atm.state.ProcessWithdrawal? && msg.WithdrawOk? && !Accepts(requests[|requests| - 1]) then atm.amount else 0)
  {
    hide Total;
    var n := |requests|;
    var after := Record(atm, requests, msg);
    if |after| == n + 1 {
      TotalAppend(requests, after[n], PaidUnaccepted);
    } else if n > 0 {
      TotalUpdate(requests, n - 1, after[n - 1], PaidUnaccepted);
      assert after == requests[n - 1 := after[n - 1]];
    }
  }

  lemma {:induction false} DispatchExcess(s: System)
    requires Base(s) && Waits(s)
    ensures PaysRightly(s, AtmRuns) ==> Excess(Dispatch(s)) == Excess(s)
    ensures !PaysRightly(s, AtmRuns) ==> Excess(Dispatch(s)) == Excess(s) + s.atm.amount > Excess(s)
  {
    hide Handle, Record, Base, Outstanding, PinOutstanding, Total, Accepts, LastRequestOk;
    BaseHasLast(s);
    RecordExcess(s.atm, s.requests, Outstanding(s), s.atmQueue[0]);
    PayingIsHandled(s.atm, s.atmQueue[0], |s.requests|);
    CloseHasNoHandler(s.atm, |s.requests|);
  }

  lemma {:induction false} BankExcess(s: System)
    requires Base(s)
    ensures Excess(BankNext(s)) <= Excess(s)
  {
    if !s.bank.closed && s.bank.pc.Handling? && s.bank.pc.msg.Withdraw? {
      var id, v := s.bank.pc.msg.id, if s.bank.balance >= s.bank.pc.msg.amount then Accepted else Denied;
      TotalUpdate(s.requests, id, s.requests[id].(verdict := v), PaidUnaccepted);
      hide Total;
    }
  }

  lemma {:induction false} OtherAtmStepsKeepRequests(s: System)
    requires !Waits(s)
    ensures AtmNext(s).requests == s.requests
  {
  }

  /** Taking `withdraw_ok` adds what it pays to the excess unless the last request is accepted or for
      nothing, and no other step adds to it. */
  lemma {:induction false} OnlyWrongPaymentsAdd(s: System, step: Step)
    requires Steady(s)
    ensures PaysRightly(s, step) ==> Excess(Next(s, step)) <= Excess(s)
    ensures !PaysRightly(s, step) ==> Excess(Next(s, step)) == Excess(s) + s.atm.amount > Excess(s)
  {
    match step
    case Press(_) =>
    case SwitchOffBank =>
    case AtmRuns =>
      if Waits(s) {
        DispatchExcess(s);
      } else {
        OtherAtmStepsKeepRequests(s);
      }
      hide Base, Total, Dispatch;
    case BankRuns => BankExcess(s); hide Base, Total, BankNext;
  }

  /** Taking `withdraw_ok` keeps conserved books exactly when the last request is accepted or for nothing. */
  lemma {:induction false} PayingKeepsBooksIff(s: System)
    requires Steady(s) && Conserved(s) && Pays(s, AtmRuns)
    ensures Conserved(Next(s, AtmRuns)) <==> PaysRightly(s, AtmRuns)
  {
    SteadyBooks(s);
    NextKeepsSteady(s, AtmRuns);
    SteadyBooks(Next(s, AtmRuns));
    OnlyWrongPaymentsAdd(s, AtmRuns);
    hide Steady, Excess, Books, Next, PaysRightly, Pays;
  }

  predicate ConservedThroughout(s: System, steps: seq<Step>)
    decreases |steps|
  {
    Conserved(s) && (steps == [] || ConservedThroughout(Next(s, steps[0]), steps[1..]))
  }

  predicate PaysRightlyThroughout(s: System, steps: seq<Step>)
    decreases |steps|
  {
    steps == [] || (PaysRightly(s, steps[0]) && PaysRightlyThroughout(Next(s, steps[0]), steps[1..]))
  }

  lemma {:induction false} ConservedFromIff(s: System, steps: seq<Step>)
    requires Steady(s) && Excess(s) == 0
    ensures ConservedThroughout(s, steps) <==> PaysRightlyThroughout(s, steps)
    decreases |steps|
  {
    SteadyBooks(s);
    if steps != [] {
      var s' := Next(s, steps[0]);
      NextKeepsSteady(s, steps[0]);
      SteadyBooks(s');
      OnlyWrongPaymentsAdd(s, steps[0]);
      hide Steady, Excess, Books, Next, PaysRightly;
      if Excess(s') == 0 {
        ConservedFromIff(s', steps[1..]);
      }
    }
  }

  /** A run conserves money at every moment exactly if every `withdraw_ok` it takes finds the last
      request accepted or for nothing. */
  lemma {:induction false} ConservedThroughoutIff(steps: seq<Step>)
    ensures ConservedThroughout(INIT, steps) <==> PaysRightlyThroughout(INIT, steps)
  {
    InitIsSteady();
    ConservedFromIff(INIT, steps);
  }

  // ---------- a late cancel ----------

  lemma {:induction false} Sent(s: System) returns (steps: seq<Step>)
    requires !s.atm.closed && |s.atm.outbox| == 1
    ensures Run(s, steps) == SendFirst(s) && SendFirst(s).atm.outbox == []
  {
    steps := Runs.Do(Next, s, [], AtmRuns);
  }

  /** Presses a key and lets the machine take it, if it is waiting with nothing else in its queue. */
  lemma {:induction false} Typed(s: System, key: AtmMsg) returns (steps: seq<Step>)
    requires !s.atm.closed && s.atm.outbox == [] && s.atm.entered && s.atmQueue == [] && !IsReply(key)
    ensures Run(s, steps) == Dispatch(s.(atmQueue := [key]))
  {
    steps := Runs.Do(Next, s, [], Press(key));
    assert Run(s, steps).atmQueue == [key];
    steps := Runs.Do(Next, s, steps, AtmRuns);
  }

  predicate AtRest(s: System, state: AtmState) {
    !s.atm.closed && s.atm.state == state && s.atm.outbox == [] && s.atm.entered && s.atmQueue == []
  }

  lemma {:induction false} Entered(s: System) returns (steps: seq<Step>)
    requires !s.atm.closed && s.atm.outbox == [] && !s.atm.entered
    ensures Run(s, steps) == s.(atm := Enter(s.atm))
  {
    steps := Runs.Do(Next, s, [], AtmRuns);
  }

  lemma {:induction false} DigitTyped(s: System, d: char) returns (steps: seq<Step>)
    requires AtRest(s, GettingPin)
    ensures Run(s, steps) == s.(atm := s.atm.(pin := s.atm.pin + [d]))
  {
    steps := Typed(s, DigitPressed(d));
    var more := Entered(Run(s, steps));
    steps := Runs.Then(Next, s, steps, more);
  }

  lemma {:induction false} PinTyped(s: System) returns (steps: seq<Step>)
    requires AtRest(s, GettingPin) && s.atm.pin == ""
    ensures Run(s, steps) == s.(atm := s.atm.(pin := RIGHT_PIN))
  {
    steps := [];
    for i := 0 to 4
      invariant Run(s, steps) == s.(atm := s.atm.(pin := RIGHT_PIN[..i]))
    {
      var more := DigitTyped(Run(s, steps), RIGHT_PIN[i]);
      steps := Runs.Then(Next, s, steps, more);
      assert RIGHT_PIN[..i + 1] == RIGHT_PIN[..i] + [RIGHT_PIN[i]];
    }
    assert RIGHT_PIN[..4] == RIGHT_PIN;
  }

  /** `s'` is `s` with more displayed, but no more money issued. */
  predicate Displayed(s': System, s: System) {
    s'.(uiQueue := []) == s.(uiQueue := []) && IssuedUi(s'.uiQueue) == IssuedUi(s.uiQueue)
  }

  lemma {:induction false} DisplaySent(s: System) returns (steps: seq<Step>)
    requires !s.atm.closed && |s.atm.outbox| == 1 && s.atm.outbox[0].ToUi? && !s.atm.outbox[0].display.IssueMoney?
    ensures Displayed(Run(s, steps), s.(atm := s.atm.(outbox := [])))
  {
    steps := Sent(s);
    IssuedUiAppend(s.uiQueue, s.atm.outbox[0].display);
  }

  predicate ReadyForCard(s: System) {
    !s.atm.closed && s.atm.state.WaitingForCard? && s.atm.outbox == [] && !s.atm.entered && s.atmQueue == []
  }

  lemma {:induction false} CardInsertedInto(s: System) returns (steps: seq<Step>)
    requires ReadyForCard(s)
    ensures Displayed(Run(s, steps), s.(atm := Atm(GettingPin, true, "acc1234", s.atm.amount, "", [], false)))
  {
    steps := Entered(s);
    var more := DisplaySent(Run(s, steps));
    steps := Runs.Then(Next, s, steps, more);
    more := Typed(Run(s, steps), CardInserted("acc1234"));
    steps := Runs.Then(Next, s, steps, more);
    more := DisplaySent(Run(s, steps));
    steps := Runs.Then(Next, s, steps, more);
    more := Entered(Run(s, steps));
    steps := Runs.Then(Next, s, steps, more);
  }

  lemma {:induction false} PinSentFrom(s: System) returns (steps: seq<Step>)
    requires AtRest(s, GettingPin) && s.atm.pin == RIGHT_PIN
    ensures Run(s, steps) == s.(
      atm := s.atm.(state := VerifyingPin),
      bankQueue := s.bankQueue + [VerifyPin(|s.requests|, s.atm.account, RIGHT_PIN)],
      requests := s.requests + [PinRequest(RIGHT_PIN)], overlapped := Run(s, steps).overlapped)
  {
    steps := Typed(s, OkPressed);
    var more := Sent(Run(s, steps));
    steps := Runs.Then(Next, s, steps, more);
    more := Entered(Run(s, steps));
    steps := Runs.Then(Next, s, steps, more);
  }

  /** A customer comes and sends off the right PIN. */
  lemma {:induction false} PinSession(s: System) returns (steps: seq<Step>)
    requires ReadyForCard(s)
    ensures Displayed(Run(s, steps), s.(
      atm := Atm(VerifyingPin, true, "acc1234", s.atm.amount, RIGHT_PIN, [], false),
      bankQueue := s.bankQueue + [VerifyPin(|s.requests|, "acc1234", RIGHT_PIN)],
      requests := s.requests + [PinRequest(RIGHT_PIN)], overlapped := Run(s, steps).overlapped))
  {
    steps := CardInsertedInto(s);
    var more := PinTyped(Run(s, steps));
    steps := Runs.Then(Next, s, steps, more);
    more := PinSentFrom(Run(s, steps));
    steps := Runs.Then(Next, s, steps, more);
  }

  lemma {:induction false} CardEjected(s: System) returns (steps: seq<Step>)
    requires !s.atm.closed && s.atm.state.DoneProcessing? && !s.atm.entered && s.atm.outbox == []
    ensures Displayed(Run(s, steps), s.(atm := s.atm.(state := WaitingForCard)))
  {
    steps := Entered(s);
    var more := DisplaySent(Run(s, steps));
    steps := Runs.Then(Next, s, steps, more);
  }

  lemma {:induction false} CancelledLate(s: System) returns (steps: seq<Step>)
    requires AtRest(s, VerifyingPin)
    ensures Displayed(Run(s, steps), s.(atm := s.atm.(state := WaitingForCard, entered := false), lateCancel := true))
  {
    steps := Typed(s, CancelPressed);
    var more := CardEjected(Run(s, steps));
    steps := Runs.Then(Next, s, steps, more);
  }

  /** The bank answers the oldest PIN, and the machine offers its options. */
  lemma {:induction false} PinAccepted(s: System, id: nat, rest: seq<BankMsg>) returns (steps: seq<Step>)
    requires AtRest(s, VerifyingPin) && !s.bank.closed && s.bank.pc.Idle?
    requires s.bankQueue == [VerifyPin(id, "acc1234", RIGHT_PIN)] + rest
    ensures Displayed(Run(s, steps), s.(atm := s.atm.(state := WaitForAction), bankQueue := rest))
  {
    steps := Runs.Do(Next, s, [], BankRuns);
    steps := Runs.Do(Next, s, steps, BankRuns);
    assert Run(s, steps) == s.(atmQueue := [PinVerified(id)], bankQueue := rest);
    steps := Runs.Do(Next, s, steps, AtmRuns);
    var more := Entered(Run(s, steps));
    steps := Runs.Then(Next, s, steps, more);
    more := DisplaySent(Run(s, steps));
    steps := Runs.Then(Next, s, steps, more);
  }

  lemma {:induction false} FiftyRequested(s: System) returns (steps: seq<Step>)
    requires AtRest(s, WaitForAction)
    ensures Run(s, steps) == s.(
      atm := s.atm.(state := ProcessWithdrawal, amount := 50),
      bankQueue := s.bankQueue + [Withdraw(|s.requests|, s.atm.account, 50)],
      requests := s.requests + [WithdrawRequest(50, Pending, false, false)])
  {
    steps := Typed(s, WithdrawProcessed("acc1234", 50));
    var more := Sent(Run(s, steps));
    steps := Runs.Then(Next, s, steps, more);
    more := Entered(Run(s, steps));
    steps := Runs.Then(Next, s, steps, more);
  }

  lemma {:induction false} WithdrawalGivenUp(s: System) returns (steps: seq<Step>)
    requires AtRest(s, ProcessWithdrawal)
    requires s.requests != [] && s.requests[|s.requests| - 1] == WithdrawRequest(50, Pending, false, false)
    ensures Displayed(Run(s, steps), s.(
      atm := s.atm.(state := WaitingForCard, entered := false),
      bankQueue := s.bankQueue + [CancelWithdrawal(s.atm.account, s.atm.amount)],
      requests := s.requests[|s.requests| - 1 := WithdrawRequest(50, Pending, true, false)]))
  {
    steps := Typed(s, CancelPressed);
    steps := Runs.Do(Next, s, steps, AtmRuns);
    var more := DisplaySent(Run(s, steps));
    steps := Runs.Then(Next, s, steps, more);
    more := CardEjected(Run(s, steps));
    steps := Runs.Then(Next, s, steps, more);
  }

  lemma {:induction false} AmountAsked(s: System) returns (steps: seq<Step>)
    requires AtRest(s, WaitForAction)
    ensures Displayed(Run(s, steps), s.(atm := s.atm.(state := GettingAmount)))
  {
    steps := Typed(s, WithdrawAmountProcessed("acc1234"));
    var more := DisplaySent(Run(s, steps));
    steps := Runs.Then(Next, s, steps, more);
    more := Entered(Run(s, steps));
    steps := Runs.Then(Next, s, steps, more);
  }

  /** The amount typed continues the amount of the last withdrawal, here 50. */
  lemma {:induction false} ZeroTyped(s: System) returns (steps: seq<Step>)
    requires AtRest(s, GettingAmount) && s.atm.amount == 50
    ensures Run(s, steps) == s.(atm := s.atm.(amount := 500))
  {
    steps := Typed(s, DigitPressed('0'));
    var more := Entered(Run(s, steps));
    steps := Runs.Then(Next, s, steps, more);
  }

  lemma {:induction false} AmountRequested(s: System) returns (steps: seq<Step>)
    requires AtRest(s, GettingAmount)
    ensures Run(s, steps) == s.(
      atm := s.atm.(state := ProcessWithdrawal),
      bankQueue := s.bankQueue + [Withdraw(|s.requests|, s.atm.account, s.atm.amount)],
      requests := s.requests + [WithdrawRequest(s.atm.amount, Pending, false, false)])
  {
    steps := Typed(s, OkPressed);
    var more := Sent(Run(s, steps));
    steps := Runs.Then(Next, s, steps, more);
    more := Entered(Run(s, steps));
    steps := Runs.Then(Next, s, steps, more);
  }

  lemma {:induction false} FiftyAccepted(s: System, id: nat, rest: seq<BankMsg>) returns (steps: seq<Step>)
    requires s.bank == Bank(OPENING_BALANCE, Idle, false) && s.atmQueue == []
    requires s.bankQueue == [Withdraw(id, "acc1234", 50)] + rest
    ensures Run(s, steps) == s.(
      bank := Bank(149, Idle, false), atmQueue := [WithdrawOk(id)], bankQueue := rest,
      requests := SetVerdict(s.requests, id, Accepted))
  {
    hide AtmNext, SetVerdict;
    steps := Runs.Do(Next, s, [], BankRuns);
    steps := Runs.Do(Next, s, steps, BankRuns);
    steps := Runs.Do(Next, s, steps, BankRuns);
  }

  /** The bank accepts the 50 given up before, and the machine pays the 500 it shows. */
  lemma {:induction false} WrongAnswerPaid(s: System, id: nat, rest: seq<BankMsg>) returns (steps: seq<Step>)
    requires AtRest(s, ProcessWithdrawal) && s.atm.amount == 500 && s.bank == Bank(OPENING_BALANCE, Idle, false)
    requires s.bankQueue == [Withdraw(id, "acc1234", 50)] + rest
    ensures var r := Run(s, steps);
      r.bank == Bank(149, Idle, false) && Issued(r) == IssuedUi(s.uiQueue) + 500 && r.lateCancel == s.lateCancel
  {
    hide BankNext;
    steps := FiftyAccepted(s, id, rest);
    steps := Runs.Do(Next, s, steps, AtmRuns);
    IssuedOutSmall(ToUi(IssueMoney(500)), ToUi(IssueMoney(500)));
  }

  /** One cancel while the PIN is being verified is enough to break conservation: this run ends with
      149 on the account and 500 paid out. */
  lemma {:induction false} LateCancelBreaksConservation() returns (steps: seq<Step>)
    ensures var s := Run(INIT, steps);
      s.lateCancel && s.bank == Bank(149, Idle, false) && Issued(s) == 500
  {
    steps := PinSession(INIT);
    var more := CancelledLate(Run(INIT, steps));
    steps := Runs.Then(Next, INIT, steps, more);
    more := SecondCustomer(Run(INIT, steps));
    steps := Runs.Then(Next, INIT, steps, more);
    more := ThirdCustomer(Run(INIT, steps));
    steps := Runs.Then(Next, INIT, steps, more);
  }

  lemma {:induction false} SecondCustomer(s: System) returns (steps: seq<Step>)
    requires ReadyForCard(s) && !s.bank.closed && s.bank.pc.Idle? && s.requests == [PinRequest(RIGHT_PIN)]
    requires s.bankQueue == [VerifyPin(0, "acc1234", RIGHT_PIN)]
    ensures var r := Run(s, steps);
      && ReadyForCard(r) && r.atm.amount == 50 && r.bank == s.bank && r.lateCancel == s.lateCancel
      && IssuedUi(r.uiQueue) == IssuedUi(s.uiQueue) && |r.requests| == 3
      && r.bankQueue ==
           [VerifyPin(1, "acc1234", RIGHT_PIN), Withdraw(2, "acc1234", 50), CancelWithdrawal("acc1234", 50)]
  {
    hide Next;
    steps := PinSession(s);
    var more := PinAccepted(Run(s, steps), 0, [VerifyPin(1, "acc1234", RIGHT_PIN)]);
    steps := Runs.Then(Next, s, steps, more);
    more := FiftyRequested(Run(s, steps));
    steps := Runs.Then(Next, s, steps, more);
    more := WithdrawalGivenUp(Run(s, steps));
    steps := Runs.Then(Next, s, steps, more);
  }

  lemma {:induction false} ThirdCustomer(s: System) returns (steps: seq<Step>)
    requires ReadyForCard(s) && s.bank == Bank(OPENING_BALANCE, Idle, false) && s.atm.amount == 50
    requires s.bankQueue ==
      [VerifyPin(1, "acc1234", RIGHT_PIN), Withdraw(2, "acc1234", 50), CancelWithdrawal("acc1234", 50)]
    ensures var r := Run(s, steps);
      r.bank == Bank(149, Idle, false) && Issued(r) == IssuedUi(s.uiQueue) + 500 && r.lateCancel == s.lateCancel
  {
    hide Next;
    var rest := [Withdraw(2, "acc1234", 50), CancelWithdrawal("acc1234", 50)];
    steps := PinSession(s);
    var verify := VerifyPin(|s.requests|, "acc1234", RIGHT_PIN);
    assert Run(s, steps).bankQueue == [VerifyPin(1, "acc1234", RIGHT_PIN)] + (rest + [verify]);
    var more := PinAccepted(Run(s, steps), 1, rest + [verify]);
    steps := Runs.Then(Next, s, steps, more);
    more := AmountAsked(Run(s, steps));
    steps := Runs.Then(Next, s, steps, more);
    more := ZeroTyped(Run(s, steps));
    steps := Runs.Then(Next, s, steps, more);
    more := AmountRequested(Run(s, steps));
    steps := Runs.Then(Next, s, steps, more);
    var tail := [rest[1], verify, Withdraw(|s.requests| + 1, "acc1234", 500)];
    assert Run(s, steps).bankQueue == [Withdraw(2, "acc1234", 50)] + tail;
    more := WrongAnswerPaid(Run(s, steps), 2, tail);
    steps := Runs.Then(Next, s, steps, more);
  }
}
