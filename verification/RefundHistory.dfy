/** What becomes, over runs, of everything an account undelegated: it is refunded three days later,
    waits, or was delegated to itself again. */
module RefundHistory {
  import opened Basics
  import opened Tables
  import opened Ledger
  import opened Maturity
  import opened RexPool
  import opened Rex
  import opened Staking
  import opened Actions
  import opened RexInvariant
  import opened RexProofs
  import opened ActionProofs
  import opened StakeProofs
  import opened ActionInv
  import opened RexTheorems
  import opened RexHistory
  import opened OrderEffects
  import opened StakeEffects

  function PendingOf(s: State, n: Name): int {
    PendingNet(s.refunds, n) + PendingCpu(s.refunds, n)
  }

  /** What the tokens of `n` gained by an action. */
  function Gained(s: State, s1: State, n: Name): int {
    Holds(s1.tokens, n) - Holds(s.tokens, n)
  }

  /** What `n` undelegates by an action that was performed. */
  function Undelegates(a: Action, n: Name): int {
    if a.Undelegate? && a.owner == n then a.net + a.cpu else 0
  }

  /** What `n` is paid as a refund. */
  function IsRefunded(s: State, s1: State, a: Action, n: Name): int {
    if a.Refunding? && a.owner == n then Gained(s, s1, n) else 0
  }

  /** What `n` delegates to itself without paying for it. */
  function Reuses(s: State, s1: State, a: Action, n: Name): int {
    if a.Delegate? && a.owner == n && a.receiver == n && !a.transfer then a.net + a.cpu + Gained(s, s1, n) else 0
  }

  /** Over a run from `s`, up to second `t`. */
  function UndelegatedBy(s: State, actions: seq<Action>, n: Name, t: int): int {
    if actions == [] then 0
    else
      var rest, a := actions[..|actions| - 1], actions[|actions| - 1];
      var s1 := Run(s, rest);
      UndelegatedBy(s, rest, n, t) + (if Exec(s1, a).Ok? && Seconds(s1.now) <= t then Undelegates(a, n) else 0)
  }

  function RefundedBy(s: State, actions: seq<Action>, n: Name, t: int): int {
    if actions == [] then 0
    else
      var rest, a := actions[..|actions| - 1], actions[|actions| - 1];
      var s1 := Run(s, rest);
      RefundedBy(s, rest, n, t)
      + (if Exec(s1, a).Ok? && Seconds(s1.now) <= t then IsRefunded(s1, Exec(s1, a).value, a, n) else 0)
  }

  function ReusedBy(s: State, actions: seq<Action>, n: Name): int {
    if actions == [] then 0
    else
      var rest, a := actions[..|actions| - 1], actions[|actions| - 1];
      var s1 := Run(s, rest);
      ReusedBy(s, rest, n) + (if Exec(s1, a).Ok? then Reuses(s1, Exec(s1, a).value, a, n) else 0)
  }

  // ---------- one action ----------

  /** The pending row of `n` as it stands. */
  ghost predicate SamePending(s: State, s1: State, n: Name) {
    (n in s1.refunds <==> n in s.refunds) && (n in s.refunds ==> s1.refunds[n] == s.refunds[n])
  }

  /** What an action does to the refund of `n`: undelegating adds to it and restarts it, delegating to
      oneself uses it up first, claiming pays all of it, three days after its time. */
  ghost predicate RefundStep(s: State, s1: State, a: Action, n: Name) {
    && PendingOf(s1, n) == PendingOf(s, n) + Undelegates(a, n) - Reuses(s, s1, a, n) - IsRefunded(s, s1, a, n)
    && Undelegates(a, n) >= 0 && Reuses(s, s1, a, n) >= 0 && IsRefunded(s, s1, a, n) >= 0
    && (Undelegates(a, n) > 0 && n in s1.refunds ==> s1.refunds[n].time == Seconds(s.now))
    && (Undelegates(a, n) == 0 && n in s1.refunds ==> n in s.refunds && s1.refunds[n].time == s.refunds[n].time)
    && (IsRefunded(s, s1, a, n) > 0 ==>
          && n in s.refunds && s.refunds[n].time + 259_200 <= Seconds(s.now) && n !in s1.refunds
          && IsRefunded(s, s1, a, n) == PendingOf(s, n) && Undelegates(a, n) == 0 && Reuses(s, s1, a, n) == 0)
    && (PendingOf(s1, n) != 0 ==> n in s1.refunds)
  }

  lemma PendingRow(s: State, n: Name)
    requires Inv(s, 0)
    ensures PendingOf(s, n) >= 0 && (PendingOf(s, n) != 0 <==> n in s.refunds)
    ensures PendingNet(s.refunds, n) >= 0 && PendingCpu(s.refunds, n) >= 0
  {
    hide SumOf;
  }

  lemma StillStep(s: State, s1: State, a: Action, n: Name)
    requires Inv(s, 0) && SamePending(s, s1, n)
    requires Undelegates(a, n) == 0 && Reuses(s, s1, a, n) == 0 && IsRefunded(s, s1, a, n) == 0
    ensures RefundStep(s, s1, a, n)
  {
    hide Inv;
    PendingRow(s, n);
  }

  lemma UndelegateStep(
    s: State, owner: Name, receiver: Name, net: int, cpu: int, activated: bool, voteOk: bool, n: Name)
    requires Inv(s, 0) && !Custodian(owner) && Exec(s, Undelegate(owner, receiver, net, cpu, activated, voteOk)).Ok?
    ensures var a := Undelegate(owner, receiver, net, cpu, activated, voteOk); RefundStep(s, Exec(s, a).value, a, n)
  {
    hide Inv, ChangeBandwidth, Delegates, NetWeight, CpuWeight, Seconds, Paid;
    StakeMoves(s, owner, receiver, -net, -cpu, false);
    var a := Undelegate(owner, receiver, net, cpu, activated, voteOk);
    var s1 := Exec(s, a).value;
    PendingRow(s, n);
    if n != owner {
      StillStep(s, s1, a, n);
    }
  }

  lemma DelegateStep(s: State, owner: Name, receiver: Name, net: int, cpu: int, transfer: bool, voteOk: bool, n: Name)
    requires Inv(s, 0) && !Custodian(owner) && Exec(s, Delegate(owner, receiver, net, cpu, transfer, voteOk)).Ok?
    ensures var a := Delegate(owner, receiver, net, cpu, transfer, voteOk); RefundStep(s, Exec(s, a).value, a, n)
  {
    hide Inv, ChangeBandwidth, Delegates, NetWeight, CpuWeight, Seconds;
    StakeMoves(s, owner, receiver, net, cpu, transfer);
    var a := Delegate(owner, receiver, net, cpu, transfer, voteOk);
    var s1 := Exec(s, a).value;
    PendingRow(s, n);
    if n == owner && receiver == owner && !transfer {
      if owner in s.refunds {
        OwnStep(s, s1, a, n);
      } else {
        FreshStep(s, s1, a, n);
      }
    } else {
      assert SamePending(s, s1, n);
      StillStep(s, s1, a, n);
    }
  }

  lemma OwnStep(s: State, s1: State, a: Action, n: Name)
    requires Inv(s, 0) && a.Delegate? && a.owner == a.receiver == n && !a.transfer && a.net >= 0 && a.cpu >= 0
    requires n in s.refunds && n != STAKE_ACCOUNT && Netted(s.refunds, s1.refunds, n, Seconds(s.now), a.net, a.cpu)
    requires Paid(s.tokens, s1.tokens, n, STAKE_ACCOUNT, Uncovered(s.refunds, n, a.net, a.cpu))
    ensures RefundStep(s, s1, a, n)
  {
    hide Inv;
    PendingRow(s, n);
  }

  lemma FreshStep(s: State, s1: State, a: Action, n: Name)
    requires Inv(s, 0) && a.Delegate? && a.owner == a.receiver == n && !a.transfer && a.net >= 0 && a.cpu >= 0
    requires n !in s.refunds && n != STAKE_ACCOUNT && s1.refunds == s.refunds
    requires Paid(s.tokens, s1.tokens, n, STAKE_ACCOUNT, Uncovered(s.refunds, n, a.net, a.cpu))
    ensures RefundStep(s, s1, a, n)
  {
    hide Inv;
    StillStep(s, s1, a, n);
  }

  lemma ClaimStep(s: State, owner: Name, n: Name)
    requires Inv(s, 0) && !Custodian(owner) && Exec(s, Refunding(owner)).Ok?
    ensures RefundStep(s, Exec(s, Refunding(owner)).value, Refunding(owner), n)
  {
    hide Inv, Exec;
    RefundMoves(s, owner);
    PendingRow(s, n);
    if n != owner {
      StillStep(s, Exec(s, Refunding(owner)).value, Refunding(owner), n);
    }
  }

  /** Maintenance and purchases leave refunds alone. */
  lemma ExchangeStill(s: State, a: Action)
    requires Inv(s, 0) && Exec(s, a).Ok?
    requires a.BuyRex? || a.UnstakeToRex? || a.SellRex? || a.Rent? || a.RexExec? || a.UpdateRex? || a.ConsolidateRex?
             || a.MvToSavings? || a.MvFrSavings? || a.CloseRex?
    ensures Exec(s, a).value.refunds == s.refunds
  {
    hide Inv, Exec, RexRun;
    match a
    case BuyRex(_, _, _) => BoughtStill(s, a);
    case UnstakeToRex(_, _, _, _, _) => BoughtStill(s, a);
    case SellRex(owner, rex, voteOk) =>
      var value := SellMoves(s, owner, rex, voteOk);
      MaintainedStill(s, 2);
    case Rent(kind, owner, receiver, payment, fund) => RentStill(s, kind, owner, receiver, payment, fund);
    case RexExec(max) =>
      ExecRexExec(s, max);
      MaintainedStill(s, max);
    case _ => AccountStill(s, a);
  }

  lemma MaintainedStill(s: State, max: nat)
    requires Inv(s, 0) && RunRex(s, max).Ok?
    ensures RunRex(s, max).value.refunds == s.refunds && Inv(RunRex(s, max).value, 0)
  {
    hide Inv, RunRex, PoolRuns, Unrenewed, LoansAvailable;
    assert s.pool.Some? by { PoolPresent(s, max); }
    RunRexKeeps(s, max);
  }

  lemma PurchaseStill(s: State, owner: Name, payment: int)
    requires Core(s, payment) && payment > 0 && OrdersInv(s.orders, s.balances, s.now)
    requires BuyShares(s, owner, payment).Ok? && RunRex(BuyShares(s, owner, payment).value, 2).Ok?
    ensures RunRex(BuyShares(s, owner, payment).value, 2).value.refunds == s.refunds
  {
    hide Core, OrdersInv, BuyShares, RunRex;
    BuySharesKeeps(s, owner, payment, payment);
    BoughtOrders(s, BuyShares(s, owner, payment).value);
    MaintainedStill(BuyShares(s, owner, payment).value, 2);
  }

  lemma BoughtStill(s: State, a: Action)
    requires Inv(s, 0) && Exec(s, a).Ok? && (a.BuyRex? || a.UnstakeToRex?)
    ensures Exec(s, a).value.refunds == s.refunds
  {
    hide Core, OrdersInv, BuyShares, RunRex, UnstakeForRex, SettleAccount;
    match a
    case BuyRex(owner, amount, voteOk) =>
      FromFundKeeps(s, owner, amount, 0);
      var s1 := FromFund(s, owner, amount).value;
      PurchaseStill(s1, owner, amount);
      SettledRefunds(RunRex(BuyShares(s1, owner, amount).value, 2).value, owner, 0);
    case UnstakeToRex(owner, receiver, net, cpu, voteOk) =>
      UnstakeForRexKeeps(s, owner, receiver, net, cpu);
      var s1 := UnstakeForRex(s, owner, receiver, net, cpu).value;
      PurchaseStill(s1, owner, net + cpu);
      SettledRefunds(RunRex(BuyShares(s1, owner, net + cpu).value, 2).value, owner, 0);
  }

  lemma SettledRefunds(s: State, owner: Name, proceeds: int)
    ensures SettleAccount(s, owner, proceeds).0.refunds == s.refunds
  {
  }

  lemma RentStill(s: State, kind: Resource, owner: Name, receiver: Name, payment: int, fund: int)
    requires Inv(s, 0) && Exec(s, Rent(kind, owner, receiver, payment, fund)).Ok?
    ensures Exec(s, Rent(kind, owner, receiver, payment, fund)).value.refunds == s.refunds
  {
    hide Inv, RunRex, FromFund, BancorOutput, UpdateTotals, LoansAvailable, AddLoan;
    MaintainedStill(s, 2);
    FundRefunds(RunRex(s, 2).value, owner, payment + fund);
  }

  lemma FundRefunds(s: State, owner: Name, amount: int)
    ensures FromFund(s, owner, amount).Ok? ==> FromFund(s, owner, amount).value.refunds == s.refunds
  {
  }

  lemma AccountStill(s: State, a: Action)
    requires Inv(s, 0) && Exec(s, a).Ok?
    requires a.UpdateRex? || a.ConsolidateRex? || a.MvToSavings? || a.MvFrSavings? || a.CloseRex?
    ensures Exec(s, a).value.refunds == s.refunds
  {
    hide Inv, RunRex, SettleAccount, Consolidate, MoveToSavings, MoveFromSavings, Process, NoLoansOf, Seconds,
         ExecUpdateRex, ExecConsolidate, ExecMvToSavings, ExecMvFrSavings;
    if s.pool.Some? || !a.CloseRex? {
      MaintainedFirst(s, a);
      MaintainedStill(s, 2);
      PoolPresent(s, 2);
      var s2 := SettledState(s, RunRex(s, 2).value, a);
      SettledRefunds(s2, a.owner, 0);
    } else {
      SettledRefunds(s, a.owner, 0);
    }
  }

  lemma MaintainedFirst(s: State, a: Action)
    requires Exec(s, a).Ok? && (s.pool.Some? || !a.CloseRex?)
    requires a.UpdateRex? || a.ConsolidateRex? || a.MvToSavings? || a.MvFrSavings? || a.CloseRex?
    ensures RunRex(s, 2).Ok?
  {
    hide RunRex, SettleAccount, Consolidate, MoveToSavings, MoveFromSavings, Process, NoLoansOf;
  }

  /** So do all other actions that neither undelegate nor claim. */
  lemma OtherStill(s: State, a: Action)
    requires Exec(s, a).Ok?
    requires a.Tick? || a.Deposit? || a.SetRex? || a.VoteProducer? || a.BidName? || a.BidRefund? || a.AuctionClose?
             || a.TransferTokens? || a.RamTrade? || a.FundLoan? || a.DefundLoan? || a.Withdraw? || a.CancelOrder?
    ensures Exec(s, a).value.refunds == s.refunds
  {
    if a.Withdraw? {
      WithdrawStill(s, a.owner, a.amount, a.voteOk);
    } else if !a.CancelOrder? {
      StillAccount(s, a);
    }
  }

  lemma WithdrawStill(s: State, owner: Name, amount: int, voteOk: bool)
    requires ExecWithdraw(s, owner, amount, voteOk).Ok?
    ensures ExecWithdraw(s, owner, amount, voteOk).value.refunds == s.refunds
  {
    hide Transfer, SettleAccount;
    SettledRefunds(s, owner, 0);
  }

  lemma ExecRefunds(s: State, a: Action, n: Name)
    requires Inv(s, 0) && Admissible(a) && Exec(s, a).Ok?
    ensures RefundStep(s, Exec(s, a).value, a, n)
  {
    hide Inv, Exec, RefundStep;
    match a
    case Undelegate(owner, receiver, net, cpu, activated, voteOk) =>
      UndelegateStep(s, owner, receiver, net, cpu, activated, voteOk, n);
    case Delegate(owner, receiver, net, cpu, transfer, voteOk) =>
      DelegateStep(s, owner, receiver, net, cpu, transfer, voteOk, n);
    case Refunding(owner) => ClaimStep(s, owner, n);
    case _ =>
      if a.BuyRex? || a.UnstakeToRex? || a.SellRex? || a.Rent? || a.RexExec? || a.UpdateRex? || a.ConsolidateRex?
         || a.MvToSavings? || a.MvFrSavings? || a.CloseRex? {
        ExchangeStill(s, a);
      } else {
        OtherStill(s, a);
      }
      StillStep(s, Exec(s, a).value, a, n);
  }

  // ---------- runs ----------

  lemma {:induction false} UndelegatedMonotone(s: State, actions: seq<Action>, n: Name, t: int, u: int)
    requires Inv(s, 0) && (forall i | 0 <= i < |actions| :: Admissible(actions[i])) && t <= u
    ensures UndelegatedBy(s, actions, n, t) <= UndelegatedBy(s, actions, n, u)
  {
    hide Inv, Exec, Seconds, RefundStep;
    if actions != [] {
      var rest, a := actions[..|actions| - 1], actions[|actions| - 1];
      UndelegatedMonotone(s, rest, n, t, u);
      RunKeeps(s, rest);
      if Exec(Run(s, rest), a).Ok? {
        ExecRefunds(Run(s, rest), a, n);
        assert Undelegates(a, n) >= 0 by { UndelegatesSomething(Run(s, rest), a, n); }
      }
    }
  }

  lemma UndelegatesSomething(s: State, a: Action, n: Name)
    requires Inv(s, 0) && Admissible(a) && Exec(s, a).Ok?
    ensures Undelegates(a, n) >= 0
  {
    hide Inv, Exec;
    ExecRefunds(s, a, n);
  }

  /** What happened by now is all there is. */
  lemma {:induction false} UndelegatedByNow(s: State, actions: seq<Action>, n: Name, t: int)
    requires Inv(s, 0) && (forall i | 0 <= i < |actions| :: Admissible(actions[i]))
    requires Seconds(Run(s, actions).now) <= t <= END_OF_DAYS
    ensures UndelegatedBy(s, actions, n, t) == UndelegatedBy(s, actions, n, END_OF_DAYS)
    ensures RefundedBy(s, actions, n, t) == RefundedBy(s, actions, n, END_OF_DAYS)
  {
    hide Inv, Exec;
    if actions != [] {
      var rest, a := actions[..|actions| - 1], actions[|actions| - 1];
      RunKeeps(s, rest);
      assert Run(s, rest).now <= Run(s, actions).now by { StepForward(Run(s, rest), a); }
      UndelegatedByNow(s, rest, n, t);
    }
  }

  lemma StepForward(s: State, a: Action)
    requires Inv(s, 0)
    ensures s.now <= Step(s, a).now
  {
    hide Inv, Step;
    StepEvolves(s, a);
  }

  /** Between actions: all that was undelegated is accounted for, what waits was undelegated by the
      time of its row, and by any second only what was undelegated three days before is refunded. */
  ghost predicate RefundsKept(genesis: State, actions: seq<Action>, n: Name) {
    var s := Run(genesis, actions);
    && UndelegatedBy(genesis, actions, n, END_OF_DAYS)
       == RefundedBy(genesis, actions, n, END_OF_DAYS) + PendingOf(s, n) + ReusedBy(genesis, actions, n)
    && ReusedBy(genesis, actions, n) >= 0
    && (n in s.refunds ==>
          RefundedBy(genesis, actions, n, END_OF_DAYS) + PendingOf(s, n)
          <= UndelegatedBy(genesis, actions, n, s.refunds[n].time))
    && (forall t: int :: RefundedBy(genesis, actions, n, t) <= UndelegatedBy(genesis, actions, n, t - 259_200))
  }

  lemma RefundsKeptStep(genesis: State, actions: seq<Action>, n: Name)
    requires Inv(genesis, 0) && actions != [] && (forall i | 0 <= i < |actions| :: Admissible(actions[i]))
    requires RefundsKept(genesis, actions[..|actions| - 1], n)
    requires Exec(Run(genesis, actions[..|actions| - 1]), actions[|actions| - 1]).Ok?
    ensures RefundsKept(genesis, actions, n)
  {
    hide Inv, Exec, Seconds, PendingOf, Undelegates, Reuses, IsRefunded;
    var rest, a := actions[..|actions| - 1], actions[|actions| - 1];
    RunKeeps(genesis, rest);
    var s := Run(genesis, rest);
    var s1 := Exec(s, a).value;
    ExecRefunds(s, a, n);
    PendingRow(s, n);
    var now := Seconds(s.now);
    assert now <= END_OF_DAYS by { ClockBound(s); }
    UndelegatedByNow(genesis, rest, n, now);
    forall t: int
      ensures RefundedBy(genesis, actions, n, t) <= UndelegatedBy(genesis, actions, n, t - 259_200)
    {
      if IsRefunded(s, s1, a, n) > 0 && now <= t {
        LaterTotals(genesis, rest, n, t, now);
        UndelegatedMonotone(genesis, rest, n, s.refunds[n].time, t - 259_200);
      }
      UndelegatedSum(genesis, actions, n, t - 259_200);
    }
    if n in s1.refunds && Undelegates(a, n) == 0 {
      UndelegatedSum(genesis, actions, n, s1.refunds[n].time);
    }
  }

  lemma UndelegatedSum(genesis: State, actions: seq<Action>, n: Name, t: int)
    requires Inv(genesis, 0) && actions != [] && (forall i | 0 <= i < |actions| :: Admissible(actions[i]))
    ensures UndelegatedBy(genesis, actions, n, t) >= UndelegatedBy(genesis, actions[..|actions| - 1], n, t)
  {
    hide Inv, Exec, Seconds;
    var rest, a := actions[..|actions| - 1], actions[|actions| - 1];
    RunKeeps(genesis, rest);
    if Exec(Run(genesis, rest), a).Ok? {
      UndelegatesSomething(Run(genesis, rest), a, n);
    }
  }

  /** Once the run is over, later seconds add nothing. */
  lemma {:induction false} LaterTotals(s: State, actions: seq<Action>, n: Name, t: int, now: nat)
    requires Inv(s, 0) && (forall i | 0 <= i < |actions| :: Admissible(actions[i]))
    requires Seconds(Run(s, actions).now) <= now <= t && now <= END_OF_DAYS
    ensures RefundedBy(s, actions, n, t) == RefundedBy(s, actions, n, END_OF_DAYS)
  {
    hide Inv, Exec;
    if actions != [] {
      var rest, a := actions[..|actions| - 1], actions[|actions| - 1];
      RunKeeps(s, rest);
      assert Run(s, rest).now <= Run(s, actions).now by { StepForward(Run(s, rest), a); }
      LaterTotals(s, rest, n, t, now);
    }
  }

  lemma {:induction false} RefundsAlwaysKept(genesis: State, actions: seq<Action>, n: Name)
    requires Genesis(genesis) && forall i | 0 <= i < |actions| :: Admissible(actions[i])
    ensures RefundsKept(genesis, actions, n)
  {
    hide Inv, Exec, Genesis, PendingOf;
    GenesisInv(genesis);
    if actions == [] {
      NothingPending(genesis, n);
    } else {
      var rest, a := actions[..|actions| - 1], actions[|actions| - 1];
      RefundsAlwaysKept(genesis, rest, n);
      if Exec(Run(genesis, rest), a).Ok? {
        RefundsKeptStep(genesis, actions, n);
      } else {
        AbortKeeps(genesis, actions, n);
      }
    }
  }

  lemma AbortKeeps(genesis: State, actions: seq<Action>, n: Name)
    requires actions != [] && RefundsKept(genesis, actions[..|actions| - 1], n)
    requires Exec(Run(genesis, actions[..|actions| - 1]), actions[|actions| - 1]).Abort?
    ensures RefundsKept(genesis, actions, n)
  {
    hide Exec, PendingOf, Seconds;
    var rest := actions[..|actions| - 1];
    assert Run(genesis, actions) == Run(genesis, rest);
    forall t: int
      ensures RefundedBy(genesis, actions, n, t) == RefundedBy(genesis, rest, n, t)
      ensures UndelegatedBy(genesis, actions, n, t) == UndelegatedBy(genesis, rest, n, t)
    {
    }
  }

  lemma NothingPending(s: State, n: Name)
    requires Genesis(s)
    ensures n !in s.refunds && PendingOf(s, n) == 0
  {
  }

  /** Over any run from an empty ledger: everything an account undelegated has been refunded to it, is
      pending, or was delegated to itself again; and by any second `t` no more has been refunded than
      what had been undelegated three days, 259200 seconds, before. */
  lemma UndelegatedIsRefunded(genesis: State, actions: seq<Action>, n: Name, t: int)
    requires Genesis(genesis) && forall i | 0 <= i < |actions| :: Admissible(actions[i])
    ensures UndelegatedBy(genesis, actions, n, END_OF_DAYS)
         == RefundedBy(genesis, actions, n, END_OF_DAYS) + PendingOf(Run(genesis, actions), n)
            + ReusedBy(genesis, actions, n)
    ensures RefundedBy(genesis, actions, n, t) <= UndelegatedBy(genesis, actions, n, t - 259_200)
  {
    hide Exec, Genesis, PendingOf;
    RefundsAlwaysKept(genesis, actions, n);
  }
}
