/**
 * The two state machines as the program has them: objects whose handlers assign fields and whose
 * waiting loop pops a shared queue. Their methods are proved to do the steps of `Messaging`.
 */
module MessagingMachines {
  import opened Options
  import opened Messaging

  // ---------- the waiting loop ----------

  /** What the waiting loop of the cash machine comes to on the messages now in its queue: it takes
      messages until one has a handler or closes the queue. */
  function Served(s: System): System
    decreases |s.atmQueue|
  {
    if !Waits(s) then s else Served(Dispatch(s))
  }

  predicate HasHandler(atm: Atm, msg: AtmMsg) {
    msg.CloseAtm? || Handle(atm, msg, 0).Some?
  }

  lemma {:induction false} HandlerForAnyId(atm: Atm, msg: AtmMsg, id: nat)
    ensures Handle(atm, msg, id).Some? <==> Handle(atm, msg, 0).Some?
  {
  }

  lemma {:induction false} HandledStopsWaiting(s: System)
    requires Waits(s)
    ensures Dispatch(s).atmQueue == s.atmQueue[1..]
    ensures HasHandler(s.atm, s.atmQueue[0]) ==> !Waits(Dispatch(s))
    ensures HasHandler(s.atm, s.atmQueue[0]) ==> Dispatch(s).atm.closed || !Dispatch(s).atm.entered
    ensures !HasHandler(s.atm, s.atmQueue[0]) ==> Dispatch(s) == s.(atmQueue := s.atmQueue[1..])
  {
    HandlerForAnyId(s.atm, s.atmQueue[0], |s.requests|);
  }

  /** The loop drops exactly the messages before the first one with a handler, and is a run of steps
      of the cash machine. */
  lemma {:induction false} ServedDropsUnhandled(s: System) returns (dropped: nat, steps: seq<Step>)
    requires Waits(s)
    ensures dropped <= |s.atmQueue|
    ensures forall i :: 0 <= i < dropped ==> !HasHandler(s.atm, s.atmQueue[i])
    ensures dropped == |s.atmQueue| ==> Served(s) == s.(atmQueue := [])
    ensures dropped < |s.atmQueue| ==>
      HasHandler(s.atm, s.atmQueue[dropped]) && Served(s) == Dispatch(s.(atmQueue := s.atmQueue[dropped..]))
    ensures Run(s, steps) == Served(s) && forall i :: 0 <= i < |steps| ==> steps[i].AtmRuns?
    decreases |s.atmQueue|
  {
    HandledStopsWaiting(s);
    var after := Dispatch(s);
    steps := [AtmRuns];
    assert Run(s, steps) == Run(after, []);
    assert Next(s, AtmRuns) == after;
    hide HasHandler, Dispatch, Handle, Next;
    if HasHandler(s.atm, s.atmQueue[0]) {
      dropped := 0;
      assert s.(atmQueue := s.atmQueue[0..]) == s;
    } else if after.atmQueue == [] {
      dropped := 1;
    } else {
      var more;
      dropped, more := ServedDropsUnhandled(after);
      forall i | 0 <= i < dropped + 1 ensures !HasHandler(s.atm, s.atmQueue[i]) {
        if i > 0 {
          assert after.atmQueue[i - 1] == s.atmQueue[i];
        }
      }
      assert s.atmQueue[1..][dropped..] == s.atmQueue[dropped + 1..];
      dropped := dropped + 1;
      steps := steps + more;
      assert steps[0].AtmRuns? && steps[1..] == more;
    }
  }

  /** `Dispatch` by cases. */
  lemma {:induction false} DispatchCases(s: System)
    requires Waits(s) && !s.atmQueue[0].CloseAtm?
    ensures var msg := s.atmQueue[0];
      match Handle(s.atm, msg, |s.requests|)
      case None => Dispatch(s) == s.(atmQueue := s.atmQueue[1..])
      case Some(atm) =>
        Dispatch(s) == System(atm, s.bank, s.atmQueue[1..], s.bankQueue, s.uiQueue, Record(s.atm, s.requests, msg),
          s.overlapped || (s.atm.state.GettingPin? && msg.OkPressed? && PinOutstanding(s)),
          s.lateCancel || (s.atm.state.VerifyingPin? && msg.CancelPressed?))
  {
    hide Handle, Record, PinOutstanding;
  }

  // ---------- the objects ----------

  class Machines {
    // the cash machine
    var state: AtmState
    var entered: bool
    var account: string
    var withdrawalAmount: nat
    var pin: string
    var outbox: seq<Out>
    var atmClosed: bool
    // the bank
    var balance: nat
    var bankPc: BankPc
    var bankClosed: bool
    // the queues
    var atmQueue: seq<AtmMsg>
    var bankQueue: seq<BankMsg>
    var uiQueue: seq<UiMsg>
    // history
    var requests: seq<Request>
    ghost var overlapped: bool
    ghost var lateCancel: bool

    function AtmNow(): Atm
      reads this
    {
      Atm(state, entered, account, withdrawalAmount, pin, outbox, atmClosed)
    }

    ghost function Current(): System
      reads this
    {
      System(
        AtmNow(), Bank(balance, bankPc, bankClosed), atmQueue, bankQueue, uiQueue, requests, overlapped, lateCancel)
    }

    /** The messages, the requests and the books agree. */
    ghost predicate Valid()
      reads this
    {
      Good(Current()) && Steady(Current())
    }

    constructor ()
      ensures Current() == INIT && Valid()
    {
      state, entered, account, withdrawalAmount, pin, outbox, atmClosed := WaitingForCard, false, "", 0, "", [], false;
      balance, bankPc, bankClosed := OPENING_BALANCE, Idle, false;
      atmQueue, bankQueue, uiQueue := [], [], [];
      requests, overlapped, lateCancel := [], false, false;
      new;
      InitIsGood();
      InitIsSteady();
    }

    /** The front panel puts a message into the queue of the cash machine; it cannot forge a reply. */
    method Press(key: AtmMsg)
      requires Valid()
      modifies this
      ensures Current() == Next(old(Current()), Step.Press(key)) && Valid()
    {
      NextKeepsValid(Current(), Step.Press(key));
      hide Good, Steady;
      if !IsReply(key) {
        atmQueue := atmQueue + [key];
      }
    }

    method SwitchOffBank()
      requires Valid()
      modifies this
      ensures Current() == Next(old(Current()), Step.SwitchOffBank) && Valid()
    {
      NextKeepsValid(Current(), Step.SwitchOffBank);
      hide Good, Steady;
      bankQueue := bankQueue + [CloseBank];
    }

    method GoTo(next: AtmState, messages: seq<Out>)
      modifies this`state, this`entered, this`outbox
      ensures state == next && !entered && outbox == messages
    {
      state, entered, outbox := next, false, messages;
    }

    method InGettingPin(msg: AtmMsg) returns (handled: bool)
      requires state.GettingPin?
      modifies this`state, this`entered, this`outbox, this`pin
      ensures Did(old(AtmNow()), msg, |requests|, handled, AtmNow())
    {
      handled := true;
      match msg {
        case DigitPressed(digit) =>
          pin := pin + [digit];
          GoTo(state, []);
        case ClearLastPressed =>
          if pin != "" {
            pin := pin[..|pin| - 1];
          }
          GoTo(state, []);
        case OkPressed => GoTo(VerifyingPin, [ToBank(VerifyPin(|requests|, account, pin))]);
        case CancelPressed => GoTo(DoneProcessing, []);
        case _ => handled := false;
      }
    }

    method InGettingAmount(msg: AtmMsg) returns (handled: bool)
      requires state.GettingAmount?
      modifies this`state, this`entered, this`outbox, this`withdrawalAmount
      ensures Did(old(AtmNow()), msg, |requests|, handled, AtmNow())
    {
      handled := true;
      match msg {
        case DigitPressed(digit) =>
          withdrawalAmount := Wrap(withdrawalAmount * 10);
          withdrawalAmount := Wrap(withdrawalAmount + (digit as int - '0' as int));
          GoTo(state, []);
        case ClearLastPressed =>
          withdrawalAmount := withdrawalAmount / 10;
          GoTo(state, []);
        case OkPressed => GoTo(ProcessWithdrawal, [ToBank(Withdraw(|requests|, account, withdrawalAmount))]);
        case CancelPressed => GoTo(DoneProcessing, []);
        case _ => handled := false;
      }
    }

    method InWaitForAction(msg: AtmMsg) returns (handled: bool)
      requires state.WaitForAction?
      modifies this`state, this`entered, this`outbox, this`withdrawalAmount
      ensures Did(old(AtmNow()), msg, |requests|, handled, AtmNow())
    {
      handled := true;
      match msg {
        case WithdrawAmountProcessed(_) => GoTo(GettingAmount, [ToUi(DisplayWithdrawalAmount)]);
        case WithdrawProcessed(_, amount) =>
          withdrawalAmount := amount;
          GoTo(ProcessWithdrawal, [ToBank(Withdraw(|requests|, account, amount))]);
        case BalancePressed => GoTo(ProcessBalance, [ToBank(GetBalance(|requests|, account))]);
        case CancelPressed => GoTo(DoneProcessing, []);
        case _ => handled := false;
      }
    }

    method InProcessWithdrawal(msg: AtmMsg) returns (handled: bool)
      requires state.ProcessWithdrawal?
      modifies this`state, this`entered, this`outbox
      ensures Did(old(AtmNow()), msg, |requests|, handled, AtmNow())
    {
      handled := true;
      match msg {
        case WithdrawOk(_) => GoTo(ContinueProcessing, [ToUi(IssueMoney(withdrawalAmount))]);
        case WithdrawDenied(_) => GoTo(ContinueProcessing, [ToUi(DisplayInsufficientFunds)]);
        case CancelPressed =>
          GoTo(DoneProcessing, [ToBank(CancelWithdrawal(account, withdrawalAmount)), ToUi(DisplayWithdrawalCancelled)]);
        case _ => handled := false;
      }
    }

    method InWaitingForCard(msg: AtmMsg) returns (handled: bool)
      requires state.WaitingForCard?
      modifies this`state, this`entered, this`outbox, this`account, this`pin
      ensures Did(old(AtmNow()), msg, |requests|, handled, AtmNow())
    {
      handled := msg.CardInserted?;
      if handled {
        account, pin := msg.account, "";
        GoTo(GettingPin, [ToUi(DisplayEnterPin)]);
      }
    }

    method InVerifyingPin(msg: AtmMsg) returns (handled: bool)
      requires state.VerifyingPin?
      modifies this`state, this`entered, this`outbox
      ensures Did(old(AtmNow()), msg, |requests|, handled, AtmNow())
    {
      handled := true;
      match msg {
        case PinVerified(_) => GoTo(WaitForAction, []);
        case PinIncorrect(_) => GoTo(DoneProcessing, [ToUi(DisplayPinIncorrect)]);
        case CancelPressed => GoTo(DoneProcessing, []);
        case _ => handled := false;
      }
    }

    method InProcessBalance(msg: AtmMsg) returns (handled: bool)
      requires state.ProcessBalance?
      modifies this`state, this`entered, this`outbox
      ensures Did(old(AtmNow()), msg, |requests|, handled, AtmNow())
    {
      handled := true;
      match msg {
        case BalanceIs(_, amount) => GoTo(WaitForAction, [ToUi(DisplayBalance(amount))]);
        case CancelPressed => GoTo(DoneProcessing, []);
        case _ => handled := false;
      }
    }

    /** Offers a message to the handlers of the current state. */
    method Offer(msg: AtmMsg) returns (handled: bool)
      modifies this`state, this`entered, this`outbox, this`account, this`pin, this`withdrawalAmount
      ensures Did(old(AtmNow()), msg, |requests|, handled, AtmNow())
    {
      match state {
        case GettingPin => handled := InGettingPin(msg);
        case GettingAmount => handled := InGettingAmount(msg);
        case WaitForAction => handled := InWaitForAction(msg);
        case ProcessWithdrawal => handled := InProcessWithdrawal(msg);
        case WaitingForCard => handled := InWaitingForCard(msg);
        case VerifyingPin => handled := InVerifyingPin(msg);
        case ProcessBalance => handled := InProcessBalance(msg);
        case _ => handled := false;
      }
    }

    /** Pops messages until one is handled or closes the queue. Where the program would block on an
        empty queue, the method returns. */
    method WaitAndDispatch()
      requires Valid() && !atmClosed && outbox == [] && entered
      modifies this
      ensures Current() == Served(old(Current())) && Valid()
    {
      hide Good, Steady, Handle, HasHandler, Dispatch;
      var waiting := true;
      while waiting && atmQueue != []
        invariant waiting ==> !atmClosed && outbox == [] && entered
        invariant !waiting ==> !Waits(Current())
        invariant Served(Current()) == Served(old(Current())) && Valid()
        decreases |atmQueue|
      {
        HandledStopsWaiting(Current());
        NextKeepsValid(Current(), AtmRuns);
        assert Next(Current(), AtmRuns) == Dispatch(Current());
        TakeOne();
        waiting := entered && !atmClosed;
      }
    }

    /** One turn of the loop. */
    method TakeOne()
      requires Waits(Current())
      modifies this
      ensures Current() == Dispatch(old(Current()))
    {
      hide Handle, Record, PinOutstanding;
      ghost var before := Current();
      var msg := atmQueue[0];
      atmQueue := atmQueue[1..];
      if msg.CloseAtm? {
        atmClosed := true;
      } else {
        HandleOrDrop(msg, before);
      }
    }

    /** The history of a message that was handled. */
    method Remember(recorded: seq<Request>, ghost before: System, msg: AtmMsg)
      modifies this`requests, this`overlapped, this`lateCancel
      ensures Current() == old(Current()).(requests := recorded,
        overlapped := old(overlapped) || (before.atm.state.GettingPin? && msg.OkPressed? && PinOutstanding(before)),
        lateCancel := old(lateCancel) || (before.atm.state.VerifyingPin? && msg.CancelPressed?))
    {
      hide PinOutstanding;
      requests := recorded;
      overlapped := overlapped || (before.atm.state.GettingPin? && msg.OkPressed? && PinOutstanding(before));
      lateCancel := lateCancel || (before.atm.state.VerifyingPin? && msg.CancelPressed?);
    }

    /** The message has left the queue; `before` is the state in which it was still there. */
    method HandleOrDrop(msg: AtmMsg, ghost before: System)
      requires Waits(before) && before.atmQueue[0] == msg && !msg.CloseAtm?
      requires Current() == before.(atmQueue := before.atmQueue[1..])
      modifies this`state, this`entered, this`outbox, this`account, this`pin, this`withdrawalAmount
      modifies this`requests, this`overlapped, this`lateCancel
      ensures Current() == Dispatch(before)
    {
      hide Handle, Record, PinOutstanding, Dispatch;
      DispatchCases(before);
      var recorded := Record(AtmNow(), requests, msg);
      var handled := Offer(msg);
      if handled {
        Remember(recorded, before, msg);
      }
    }

    /** The first message of a handler goes out. */
    method Send()
      requires outbox != []
      modifies this`outbox, this`bankQueue, this`uiQueue
      ensures Current() == SendFirst(old(Current()))
    {
      match outbox[0] {
        case ToBank(m) => bankQueue := bankQueue + [m];
        case ToUi(m) => uiQueue := uiQueue + [m];
      }
      outbox := outbox[1..];
    }

    /** What a state function does first. */
    method EnterState()
      modifies this`state, this`entered, this`outbox
      ensures AtmNow() == Enter(old(AtmNow()))
    {
      match state {
        case WaitingForCard => entered, outbox := true, [ToUi(DisplayEnterCard)];
        case WaitForAction => entered, outbox := true, [ToUi(DisplayWithdrawalOptions)];
        case DoneProcessing => GoTo(WaitingForCard, [ToUi(EjectCard)]);
        case ContinueProcessing => GoTo(WaitForAction, []);
        case _ => entered := true;
      }
    }

    method AtmStep()
      requires Valid()
      modifies this
      ensures Current() == Next(old(Current()), AtmRuns) && Valid()
    {
      hide Good, Steady, SendFirst, Enter, Dispatch;
      NextKeepsValid(Current(), AtmRuns);
      if !atmClosed {
        if outbox != [] {
          Send();
        } else if !entered {
          EnterState();
        } else if atmQueue != [] {
          TakeOne();
        }
      }
    }

    /** The bank accepts a withdrawal if the balance covers it. */
    method Decide(id: nat, amount: nat)
      requires bankPc == Idle
      modifies this`bankPc, this`atmQueue, this`requests
      ensures Current() == old(Current()).(
        bank := old(Current()).bank.(pc := if balance >= amount then Deducting(amount) else Idle),
        atmQueue := old(atmQueue) + [if balance >= amount then WithdrawOk(id) else WithdrawDenied(id)],
        requests := SetVerdict(old(requests), id, if balance >= amount then Accepted else Denied))
    {
      hide SetVerdict;
      if balance >= amount {
        atmQueue := atmQueue + [WithdrawOk(id)];
        requests := SetVerdict(requests, id, Accepted);
        bankPc := Deducting(amount);
      } else {
        atmQueue := atmQueue + [WithdrawDenied(id)];
        requests := SetVerdict(requests, id, Denied);
      }
    }

    /** The bank answers the message in hand and, for an accepted withdrawal, books it afterwards. */
    method AnswerMessage(msg: BankMsg)
      requires bankPc == Handling(msg)
      modifies this`balance, this`bankPc, this`bankClosed, this`atmQueue, this`requests
      ensures Current() == Answer(old(Current()))
    {
      hide SetVerdict;
      bankPc := Idle;
      match msg {
        case VerifyPin(id, _, typed) =>
          if typed == RIGHT_PIN {
            atmQueue := atmQueue + [PinVerified(id)];
          } else {
            atmQueue := atmQueue + [PinIncorrect(id)];
          }
        case Withdraw(id, _, amount) =>
          Decide(id, amount);
        case GetBalance(id, _) => atmQueue := atmQueue + [BalanceIs(id, balance)];
        case CancelWithdrawal(_, _) =>
        case CloseBank => bankClosed := true;
      }
    }

    method BankStep()
      requires Valid()
      modifies this
      ensures Current() == Next(old(Current()), BankRuns) && Valid()
    {
      hide Good, Steady, Answer;
      NextKeepsValid(Current(), BankRuns);
      if !bankClosed {
        match bankPc {
          case Idle =>
            if bankQueue != [] {
              bankPc, bankQueue := Handling(bankQueue[0]), bankQueue[1..];
            }
          case Handling(msg) => AnswerMessage(msg);
          case Deducting(amount) =>
            balance := Wrap(balance - amount);
            bankPc := Idle;
        }
      }
    }
  }

  lemma {:induction false} NextKeepsValid(s: System, step: Step)
    requires Good(s) && Steady(s)
    ensures Good(Next(s, step)) && Steady(Next(s, step))
  {
    hide Good, Steady, Next;
    NextKeepsGood(s, step);
    NextKeepsSteady(s, step);
  }

  /** The handlers did what `Handle` says. */
  ghost predicate Did(before: Atm, msg: AtmMsg, id: nat, handled: bool, after: Atm) {
    match Handle(before, msg, id)
    case None => !handled && after == before
    case Some(atm) => handled && after == atm
  }
}
